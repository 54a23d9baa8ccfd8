/** Muting a chat member: the bot restricts the member and then announces the
    outcome in the chat. The announcement templates are `str.format`
    templates; the random choice of a template is an input index. */
module Mute {
  import opened Wrappers
  import opened Strings
  import opened TransportModels
  import opened TelegramApi

  /** The permissions a muted member keeps: none of the four send rights. */
  const RestrictPermission: ChatPermissions := ChatPermissions(false, false, false, false)

  /** The opening of every announcement: a mention link to a user. */
  const LinkStart: string := "🧐 <a href=\"tg://user?id="

  /** `MuteMessages.ACCIDENT`: the restricted user had an accident. */
  const Accident: seq<Template> := [
    [Lit(LinkStart), Field("user"), Lit("\">"), Field("name"),
     Lit("</a> споткнулся, упал и попал в больницу на "), Field("time"), Lit(" минут.")],
    [Lit(LinkStart), Field("user"), Lit("\">"), Field("name"),
     Lit("</a> заигрался револьвером и угодил в травмпункт на "), Field("time"), Lit(" минут.")],
    [Lit(LinkStart), Field("user"), Lit("\">"), Field("name"),
     Lit("</a> переводил бабушку через дорогу и теперь отдыхает "), Field("time"), Lit(" минут.")],
    [Lit(LinkStart), Field("user"), Lit("\">"), Field("name"),
     Lit("</a> решил подумать о жизни "), Field("time"), Lit(" минут.")]
  ]

  /** `MuteMessages.LOOSER`: the initiator failed to mute the victim. */
  const Looser: seq<Template> := [
    [Lit(LinkStart), Field("looser_id"), Lit("\">"), Field("looser_name"),
     Lit("</a> хотел убить <a href=\"tg://user?id="), Field("victim_id"), Lit("\">"), Field("victim_name"),
     Lit("</a>, но что-то пошло не так и он вынужден провести в тюрьме "), Field("time"), Lit(" минут")],
    [Lit("🧐 У <a href=\"tg://user?id="), Field("looser_id"), Lit("\">"), Field("looser_name"),
     Lit("</a> лапки коротковаты чтоб убить <a href=\"tg://user?id="), Field("victim_id"), Lit("\">"), Field("victim_name"),
     Lit("</a>")]
  ]

  /** The whole minutes of a restriction given in seconds, rounded down. */
  function Minutes(seconds: int): (m: int)
    ensures 60 * m <= seconds < 60 * m + 60
  {
    seconds / 60
  }

  /** The arguments of an accident announcement. */
  function AccidentArgs(restrictUser: User, seconds: int): map<string, string>
  {
    map["user" := IntToString(restrictUser.id), "name" := ReadableName(restrictUser),
        "time" := IntToString(Minutes(seconds))]
  }

  /** The arguments of a failure announcement; there is no "time" among them. */
  function LooserArgs(initiator: User, victim: User): map<string, string>
  {
    map["looser_id" := IntToString(initiator.id), "looser_name" := ReadableName(initiator),
        "victim_id" := IntToString(victim.id), "victim_name" := ReadableName(victim)]
  }

  /** Every field of `t` is one of `names`. */
  predicate FieldsWithin(t: Template, names: set<string>)
  {
    forall k :: 0 <= k < |t| && t[k].Field? ==> t[k].name in names
  }

  /** A template whose fields all have arguments formats successfully. */
  lemma FormatsWhenFieldsWithin(t: Template, args: map<string, string>)
    requires FieldsWithin(t, args.Keys)
    ensures Format(t, args).Ok?
  {
    forall name | HasField(t, name) ensures name in args {
      var k :| 0 <= k < |t| && t[k] == Field(name);
    }
  }

  /** Every accident template formats, and its text shows the restricted
      user's id, name and minutes. */
  lemma AccidentAnnouncement(k: nat, restrictUser: User, seconds: int)
    requires k < |Accident|
    ensures Format(Accident[k], AccidentArgs(restrictUser, seconds)).Ok?
    ensures var text := Format(Accident[k], AccidentArgs(restrictUser, seconds)).value;
            && (exists i :: OccursAt(IntToString(restrictUser.id), text, i))
            && (exists i :: OccursAt(ReadableName(restrictUser), text, i))
            && (exists i :: OccursAt(IntToString(Minutes(seconds)), text, i))
  {
    var t := Accident[k];
    var args := AccidentArgs(restrictUser, seconds);
    assert t[1] == Field("user") && t[3] == Field("name") && t[5] == Field("time");
    assert FieldsWithin(t, args.Keys);
    FormatsWhenFieldsWithin(t, args);
    FormatShowsArgument(t, args, "user");
    FormatShowsArgument(t, args, "name");
    FormatShowsArgument(t, args, "time");
  }

  /** The first failure template asks for "time", which it is not given, so
      formatting it raises `KeyError("time")`. */
  lemma FirstLooserFails(initiator: User, victim: User)
    ensures Format(Looser[0], LooserArgs(initiator, victim)) == Err("time")
  {
    var t := Looser[0];
    assert t[9] == Field("time");
    FormatFirstMissing(t, LooserArgs(initiator, victim), 9);
  }

  /** The second failure template formats, and its text shows the
      initiator's and the victim's names. */
  lemma SecondLooserAnnouncement(initiator: User, victim: User)
    ensures Format(Looser[1], LooserArgs(initiator, victim)).Ok?
    ensures var text := Format(Looser[1], LooserArgs(initiator, victim)).value;
            && (exists i :: OccursAt(ReadableName(initiator), text, i))
            && (exists i :: OccursAt(ReadableName(victim), text, i))
  {
    var t := Looser[1];
    var args := LooserArgs(initiator, victim);
    assert t[3] == Field("looser_name") && t[7] == Field("victim_name");
    assert FieldsWithin(t, args.Keys);
    FormatsWhenFieldsWithin(t, args);
    FormatShowsArgument(t, args, "looser_name");
    FormatShowsArgument(t, args, "victim_name");
  }

  /** `send_mute_request`. The member is restricted first, in the message's
      chat, with no permissions until `now` plus the restriction;
      `response` is Telegram's decoded answer, which `check_api_response`
      turns into the call's result or an exception. An exception (a refused
      restriction raises `ValueError`) propagates and nothing is sent. A
      truthy result sends the chosen accident template to the chat; a falsy
      one sends the chosen failure template as a reply to the message, and
      the first of them raises `KeyError("time")` before anything is sent. */
  method SendMuteRequest(message: Message, initiator: User, restrictUser: User, restrictSeconds: int,
                         now: int, accidentChoice: nat, looserChoice: nat, response: Json)
    returns (calls: seq<ApiCall>, raised: Option<ApiError>)
    requires accidentChoice < |Accident| && looserChoice < |Looser|
    ensures |calls| >= 1
    ensures calls[0] == RestrictChatMember(message.chat.id, restrictUser.id, RestrictPermission, now + restrictSeconds)
    ensures CheckApiResponse(response).Err? ==> raised == Some(CheckApiResponse(response).error) && calls == [calls[0]]
    ensures CheckApiResponse(response).Ok? && Truthy(CheckApiResponse(response).value) ==>
              raised == None &&
              calls == [calls[0], SendMessageCall(message.chat.id,
                                                  Format(Accident[accidentChoice], AccidentArgs(restrictUser, restrictSeconds)).value,
                                                  None)]
    ensures CheckApiResponse(response).Ok? && !Truthy(CheckApiResponse(response).value) && looserChoice == 0 ==>
              raised == Some(KeyError("time")) && calls == [calls[0]]
    ensures CheckApiResponse(response).Ok? && !Truthy(CheckApiResponse(response).value) && looserChoice == 1 ==>
              raised == None &&
              calls == [calls[0], SendMessageCall(message.chat.id,
                                                  Format(Looser[1], LooserArgs(initiator, restrictUser)).value,
                                                  Some(message.messageId))]
  {
    var template := Accident[accidentChoice];
    calls := [RestrictChatMember(message.chat.id, restrictUser.id, RestrictPermission, now + restrictSeconds)];
    var isSuccess := CheckApiResponse(response);
    if isSuccess.Err? {
      return calls, Some(isSuccess.error);
    }
    if Truthy(isSuccess.value) {
      AccidentAnnouncement(accidentChoice, restrictUser, restrictSeconds);
      var text := Format(template, AccidentArgs(restrictUser, restrictSeconds));
      calls := calls + [SendMessageCall(message.chat.id, text.value, None)];
      return calls, None;
    }
    template := Looser[looserChoice];
    if looserChoice == 0 {
      FirstLooserFails(initiator, restrictUser);
    } else {
      SecondLooserAnnouncement(initiator, restrictUser);
    }
    var text := Format(template, LooserArgs(initiator, restrictUser));
    if text.Err? {
      return calls, Some(KeyError(text.error));
    }
    calls := calls + [SendMessageCall(message.chat.id, text.value, Some(message.messageId))];
    raised := None;
  }
}
