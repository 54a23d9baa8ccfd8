/** The Telegram Bot API client, without the network: method URLs, the check
    applied to every decoded response, the fold over a decoded `getUpdates`
    result and the filter over a decoded `getChatAdministrators` result.
    Outbound calls are values of `ApiCall`, recorded instead of sent. */
module TelegramApi {
  import opened Wrappers
  import opened TransportModels

  /** The prefix of every method URL; the bot token follows it directly. */
  const ApiUrlPrefix: string := "https://api.telegram.org/bot"

  /** `TelegramBotApi._base_api_url`. */
  function BaseApiUrl(token: string): string
  {
    ApiUrlPrefix + token
  }

  /** `TelegramBotApi._api_method_url`: the base URL, a slash, the method name. */
  function ApiMethodUrl(token: string, methodName: string): string
  {
    BaseApiUrl(token) + "/" + methodName
  }

  /** The position of the last `c` in `s`, if any. */
  function LastIndexOf(s: string, c: char): (r: Option<nat>)
    ensures r.Some? ==> r.value < |s| && s[r.value] == c && forall k :: r.value < k < |s| ==> s[k] != c
    ensures r.None? ==> forall k :: 0 <= k < |s| ==> s[k] != c
  {
    if s == [] then None
    else if s[|s| - 1] == c then Some(|s| - 1)
    else LastIndexOf(s[..|s| - 1], c)
  }

  /** Reads a method URL back into its token and method name: the method is
      what follows the last slash. */
  function SplitMethodUrl(url: string): Option<(string, string)>
  {
    if !(ApiUrlPrefix <= url) then None
    else
      var rest := url[|ApiUrlPrefix|..];
      match LastIndexOf(rest, '/')
      case None => None
      case Some(i) => Some((rest[..i], rest[i + 1..]))
  }

  /** A method URL determines the token and the method it was built from, for
      every method name without a slash (every API method name). */
  lemma MethodUrlRoundTrip(token: string, methodName: string)
    requires forall k :: 0 <= k < |methodName| ==> methodName[k] != '/'
    ensures ApiUrlPrefix <= ApiMethodUrl(token, methodName)
    ensures SplitMethodUrl(ApiMethodUrl(token, methodName)) == Some((token, methodName))
  {
    var url := ApiMethodUrl(token, methodName);
    assert url == ApiUrlPrefix + (token + "/" + methodName);
    var rest := url[|ApiUrlPrefix|..];
    assert rest == token + "/" + methodName;
    var r := LastIndexOf(rest, '/');
    assert rest[|token|] == '/';
    assert r.Some?;
    assert forall k :: |token| < k < |rest| ==> rest[k] == methodName[k - |token| - 1];
    assert r.value == |token|;
    assert rest[..|token|] == token;
    assert rest[|token| + 1..] == methodName;
  }

  /** Decoded JSON, without floating-point numbers. */
  datatype Json =
    | JNull
    | JBool(b: bool)
    | JInt(i: int)
    | JStr(s: string)
    | JArray(items: seq<Json>)
    | JObject(fields: map<string, Json>)

  /** Python truthiness of a decoded JSON value. */
  predicate Truthy(j: Json)
  {
    match j
    case JNull => false
    case JBool(b) => b
    case JInt(i) => i != 0
    case JStr(s) => s != ""
    case JArray(items) => items != []
    case JObject(fields) => fields != map[]
  }

  /** The exceptions the client code raises. */
  datatype ApiError =
    | ValueError          // the response's "ok" is missing or falsy
    | KeyError(key: string)
    | AttributeError(name: string)
    | ValidationError     // a record does not validate as the expected model

  /** `TelegramBotApi.check_api_response` on the decoded body of a response. */
  function CheckApiResponse(data: Json): Result<Json, ApiError>
  {
    match data
    case JObject(fields) =>
      var isOk := if "ok" in fields then fields["ok"] else JBool(false);
      if !Truthy(isOk) then Err(ValueError)
      else if "result" !in fields then Err(KeyError("result"))
      else Ok(fields["result"])
    case _ => Err(AttributeError("get"))
  }

  /** A response passes the check exactly when it is an object whose "ok" is
      present and truthy and which has a "result"; the check then returns that
      result. A missing or falsy "ok" raises `ValueError`. */
  lemma CheckApiResponseSpec(data: Json)
    ensures CheckApiResponse(data).Ok? <==>
              data.JObject? && "ok" in data.fields && Truthy(data.fields["ok"]) && "result" in data.fields
    ensures CheckApiResponse(data).Ok? ==> CheckApiResponse(data).value == data.fields["result"]
    ensures data.JObject? && ("ok" !in data.fields || !Truthy(data.fields["ok"])) ==>
              CheckApiResponse(data) == Err(ValueError)
  {
  }

  /** The form parameters `get_updates` sends: "offset" only for a truthy offset. */
  function GetUpdatesParams(offset: Option<int>): (params: map<string, int>)
    ensures "offset" in params <==> offset.Some? && offset.value != 0
    ensures "offset" in params ==> params["offset"] == offset.value
    ensures params.Keys <= {"offset"}
  {
    if offset.Some? && offset.value != 0 then map["offset" := offset.value] else map[]
  }

  /** One decoded record of a `getUpdates` result. `updateId` is `None` when
      the record has no "update_id" key; `message` is `None` when the record
      does not validate as an `Update`. */
  datatype RawUpdate = RawUpdate(updateId: Option<int>, message: Option<Message>)

  predicate HasUpdateId(r: RawUpdate) { r.updateId.Some? }

  predicate AllHaveIds(rs: seq<RawUpdate>)
  {
    forall k :: 0 <= k < |rs| ==> HasUpdateId(rs[k])
  }

  /** The update ids of the records, in order. */
  function Ids(rs: seq<RawUpdate>): (ids: seq<int>)
    requires AllHaveIds(rs)
    ensures |ids| == |rs| && forall k :: 0 <= k < |rs| ==> ids[k] == rs[k].updateId.value
  {
    if rs == [] then [] else [rs[0].updateId.value] + Ids(rs[1..])
  }

  /** Python truthiness of the running latest id: `None` and `0` are falsy. */
  predicate Falsy(latest: Option<int>)
  {
    latest.None? || latest.value == 0
  }

  /** One step of the running latest id: a falsy value is replaced by the
      record's id, otherwise the larger of the two is kept. */
  function NextLatest(latest: Option<int>, id: int): Option<int>
  {
    if Falsy(latest) || latest.value < id then Some(id) else latest
  }

  /** The latest id after the records with ids `ids`, starting from `offset`. */
  function LatestOf(offset: Option<int>, ids: seq<int>): Option<int>
  {
    if ids == [] then offset else NextLatest(LatestOf(offset, ids[..|ids| - 1]), ids[|ids| - 1])
  }

  /** The result is always the given offset or one of the ids. */
  lemma {:induction false} LatestOfIsOffsetOrId(offset: Option<int>, ids: seq<int>)
    ensures LatestOf(offset, ids) == offset || exists k :: 0 <= k < |ids| && LatestOf(offset, ids) == Some(ids[k])
  {
    if ids != [] {
      var init := ids[..|ids| - 1];
      LatestOfIsOffsetOrId(offset, init);
      if LatestOf(offset, ids) != Some(ids[|ids| - 1]) {
        assert LatestOf(offset, ids) == LatestOf(offset, init);
        if LatestOf(offset, init) != offset {
          var k :| 0 <= k < |init| && LatestOf(offset, init) == Some(init[k]);
          assert init[k] == ids[k];
        }
      }
    }
  }

  /** With positive ids (as the API issues them) and a non-negative or absent
      offset, the result is the maximum of the ids and of a truthy offset:
      it is at least every id and the offset, and is one of them. */
  lemma {:induction false} LatestOfIsMaximum(offset: Option<int>, ids: seq<int>)
    requires forall k :: 0 <= k < |ids| ==> ids[k] > 0
    requires offset.Some? ==> offset.value >= 0
    ensures ids != [] ==> LatestOf(offset, ids).Some?
    ensures ids != [] ==> forall k :: 0 <= k < |ids| ==> ids[k] <= LatestOf(offset, ids).value
    ensures ids != [] && !Falsy(offset) ==> offset.value <= LatestOf(offset, ids).value
    ensures LatestOf(offset, ids).Some? ==> LatestOf(offset, ids).value >= 0
  {
    if ids != [] {
      var init := ids[..|ids| - 1];
      LatestOfIsMaximum(offset, init);
      assert forall k :: 0 <= k < |init| ==> init[k] == ids[k];
    }
  }

  /** The update a valid record decodes to. */
  function ToUpdate(r: RawUpdate): Update
    requires HasUpdateId(r) && r.message.Some?
  {
    Update(r.updateId.value, r.message.value)
  }

  /** The updates of the records that validate, in input order. */
  function ValidUpdates(rs: seq<RawUpdate>): seq<Update>
    requires AllHaveIds(rs)
  {
    if rs == [] then []
    else
      var last := rs[|rs| - 1];
      ValidUpdates(rs[..|rs| - 1]) + (if last.message.Some? then [ToUpdate(last)] else [])
  }

  /** `idx` lists, in increasing order, exactly the positions of the records
      that validate, and `us` holds their updates in that order. */
  ghost predicate IsValidSelection(idx: seq<nat>, rs: seq<RawUpdate>, us: seq<Update>)
    requires AllHaveIds(rs)
  {
    && |idx| == |us|
    && (forall k :: 0 <= k < |idx| ==> idx[k] < |rs| && rs[idx[k]].message.Some? && us[k] == ToUpdate(rs[idx[k]]))
    && (forall k, l :: 0 <= k < l < |idx| ==> idx[k] < idx[l])
    && (forall j :: 0 <= j < |rs| && rs[j].message.Some? ==> j in idx)
  }

  /** A selection of the records of `init` extends to `init + [r]`. */
  lemma ExtendValidSelection(idx: seq<nat>, init: seq<RawUpdate>, us: seq<Update>, r: RawUpdate)
    requires AllHaveIds(init) && HasUpdateId(r)
    requires IsValidSelection(idx, init, us)
    ensures AllHaveIds(init + [r])
    ensures r.message.Some? ==> IsValidSelection(idx + [|init|], init + [r], us + [ToUpdate(r)])
    ensures r.message.None? ==> IsValidSelection(idx, init + [r], us)
  {
    var rs := init + [r];
    assert forall j :: 0 <= j < |init| ==> rs[j] == init[j];
    assert forall k :: 0 <= k < |idx| ==> idx[k] < |init|;
  }

  /** The returned updates are the valid records, in input order, and no
      others; so there are never more of them than records. */
  lemma {:induction false} ValidUpdatesSelection(rs: seq<RawUpdate>) returns (idx: seq<nat>)
    requires AllHaveIds(rs)
    ensures IsValidSelection(idx, rs, ValidUpdates(rs))
    ensures |ValidUpdates(rs)| <= |rs|
  {
    if rs == [] {
      idx := [];
    } else {
      var n := |rs| - 1;
      var init := rs[..n];
      assert rs == init + [rs[n]];
      assert AllHaveIds(init);
      var idx0 := ValidUpdatesSelection(init);
      ExtendValidSelection(idx0, init, ValidUpdates(init), rs[n]);
      idx := if rs[n].message.Some? then idx0 + [n] else idx0;
    }
  }

  /** The ids of a prefix are the prefix of the ids. */
  lemma IdsPrefix(rs: seq<RawUpdate>, i: nat)
    requires AllHaveIds(rs) && i <= |rs|
    ensures AllHaveIds(rs[..i]) && Ids(rs[..i]) == Ids(rs)[..i]
  {
  }

  /** One more record with an id extends both folds of `get_updates` by that record. */
  lemma GetUpdatesStep(offset: Option<int>, results: seq<RawUpdate>, i: nat)
    requires i < |results| && AllHaveIds(results[..i]) && HasUpdateId(results[i])
    ensures AllHaveIds(results[..i + 1])
    ensures ValidUpdates(results[..i + 1])
            == ValidUpdates(results[..i]) + (if results[i].message.Some? then [ToUpdate(results[i])] else [])
    ensures LatestOf(offset, Ids(results[..i + 1]))
            == NextLatest(LatestOf(offset, Ids(results[..i])), results[i].updateId.value)
  {
    var next := results[..i + 1];
    assert next[..i] == results[..i];
    assert AllHaveIds(next);
    IdsPrefix(next, i);
  }

  /** The loop of `TelegramBotApi.get_updates` over the decoded result list:
      it keeps the valid records as updates and folds every record's id,
      valid or not, into the latest id. A record without an id raises `KeyError`. */
  method GetUpdates(offset: Option<int>, results: seq<RawUpdate>)
    returns (r: Result<(seq<Update>, Option<int>), ApiError>)
    ensures r.Err? <==> !AllHaveIds(results)
    ensures r.Err? ==> r.error == KeyError("update_id")
    ensures r.Ok? ==> r.value.0 == ValidUpdates(results) && r.value.1 == LatestOf(offset, Ids(results))
    ensures results == [] ==> r == Ok(([], offset))
  {
    var updates: seq<Update> := [];
    var latest := offset;
    var i := 0;
    while i < |results|
      invariant 0 <= i <= |results|
      invariant AllHaveIds(results[..i])
      invariant updates == ValidUpdates(results[..i])
      invariant latest == LatestOf(offset, Ids(results[..i]))
    {
      var result := results[i];
      if result.updateId.None? {
        assert !AllHaveIds(results) by { assert !HasUpdateId(results[i]); }
        return Err(KeyError("update_id"));
      }
      GetUpdatesStep(offset, results, i);
      latest := NextLatest(latest, result.updateId.value);
      if result.message.Some? {
        updates := updates + [ToUpdate(result)];
      }
      i := i + 1;
    }
    assert results[..i] == results;
    r := Ok((updates, latest));
  }

  /** One decoded record of a `getChatAdministrators` result. `status` is
      `None` when the record has no "status" key; `wellFormed` is false when
      the record does not validate as a chat member. */
  datatype RawChatMember = RawChatMember(
    status: Option<string>,
    user: User,
    isAnonymous: bool,
    customTitle: Option<string>,
    wellFormed: bool)

  /** The record is kept: its status is "creator" or "administrator". */
  predicate IsAdminRecord(r: RawChatMember)
  {
    r.status.Some? && ParseChatMemberStatus(r.status.value).Some?
  }

  /** The chat member a kept record becomes (an owner for "creator"). */
  function ToChatMember(r: RawChatMember): ChatMember
    requires IsAdminRecord(r)
  {
    ChatMember(ParseChatMemberStatus(r.status.value).value, r.user, r.isAnonymous, r.customTitle)
  }

  /** Every record has a status, and every kept record validates. */
  predicate AdminRecordsDecode(rs: seq<RawChatMember>)
  {
    forall k :: 0 <= k < |rs| ==> rs[k].status.Some? && (IsAdminRecord(rs[k]) ==> rs[k].wellFormed)
  }

  /** The error decoding one record raises, if any: a missing status is a
      `KeyError`, and a kept record that does not validate is a validation
      error. */
  function RecordError(r: RawChatMember): (e: Option<ApiError>)
    ensures e.None? <==> r.status.Some? && (IsAdminRecord(r) ==> r.wellFormed)
  {
    if r.status.None? then Some(KeyError("status"))
    else if IsAdminRecord(r) && !r.wellFormed then Some(ValidationError)
    else None
  }

  /** The kept records, converted, in input order. */
  function Admins(rs: seq<RawChatMember>): seq<ChatMember>
    requires AdminRecordsDecode(rs)
  {
    if rs == [] then []
    else
      var last := rs[|rs| - 1];
      Admins(rs[..|rs| - 1]) + (if IsAdminRecord(last) then [ToChatMember(last)] else [])
  }

  /** `idx` lists, in increasing order, exactly the positions of the kept records. */
  ghost predicate IsAdminSelection(idx: seq<nat>, rs: seq<RawChatMember>, admins: seq<ChatMember>)
  {
    && |idx| == |admins|
    && (forall k :: 0 <= k < |idx| ==> idx[k] < |rs| && IsAdminRecord(rs[idx[k]]) && admins[k] == ToChatMember(rs[idx[k]]))
    && (forall k, l :: 0 <= k < l < |idx| ==> idx[k] < idx[l])
    && (forall j :: 0 <= j < |rs| && IsAdminRecord(rs[j]) ==> j in idx)
  }

  /** A selection of the kept records of `init` extends to `init + [r]`. */
  lemma ExtendAdminSelection(idx: seq<nat>, init: seq<RawChatMember>, admins: seq<ChatMember>, r: RawChatMember)
    requires IsAdminSelection(idx, init, admins)
    ensures IsAdminRecord(r) ==> IsAdminSelection(idx + [|init|], init + [r], admins + [ToChatMember(r)])
    ensures !IsAdminRecord(r) ==> IsAdminSelection(idx, init + [r], admins)
  {
    var rs := init + [r];
    assert forall j :: 0 <= j < |init| ==> rs[j] == init[j];
    assert forall k :: 0 <= k < |idx| ==> idx[k] < |init|;
  }

  /** The administrators are exactly the creator and administrator records, in
      input order, each with its own status; every other record is dropped. */
  lemma {:induction false} AdminsSelection(rs: seq<RawChatMember>) returns (idx: seq<nat>)
    requires AdminRecordsDecode(rs)
    ensures IsAdminSelection(idx, rs, Admins(rs))
    ensures forall k :: 0 <= k < |Admins(rs)| ==>
              (Admins(rs)[k].status == Creator <==> rs[idx[k]].status == Some("creator"))
  {
    if rs == [] {
      idx := [];
    } else {
      var n := |rs| - 1;
      var init := rs[..n];
      assert rs == init + [rs[n]];
      assert AdminRecordsDecode(init);
      var idx0 := AdminsSelection(init);
      ExtendAdminSelection(idx0, init, Admins(init), rs[n]);
      idx := if IsAdminRecord(rs[n]) then idx0 + [n] else idx0;
    }
    forall k | 0 <= k < |Admins(rs)|
      ensures Admins(rs)[k].status == Creator <==> rs[idx[k]].status == Some("creator")
    {
      assert Admins(rs)[k] == ToChatMember(rs[idx[k]]);
    }
  }

  /** One more record that decodes extends the administrators by that record,
      when it is kept. */
  lemma AdminsStep(results: seq<RawChatMember>, i: nat)
    requires i < |results| && AdminRecordsDecode(results[..i]) && RecordError(results[i]).None?
    ensures AdminRecordsDecode(results[..i + 1])
    ensures Admins(results[..i + 1])
            == Admins(results[..i]) + (if IsAdminRecord(results[i]) then [ToChatMember(results[i])] else [])
  {
    var next := results[..i + 1];
    assert next[..i] == results[..i];
    assert AdminRecordsDecode(next);
  }

  /** The loop of `TelegramBotApi.get_chat_administrators` over the decoded
      result list. A record without a status raises `KeyError`; a kept record
      that does not validate raises `ValidationError`. */
  method GetChatAdministrators(results: seq<RawChatMember>) returns (r: Result<seq<ChatMember>, ApiError>)
    ensures r.Ok? <==> AdminRecordsDecode(results)
    ensures r.Ok? ==> r.value == Admins(results)
    ensures r.Err? ==> exists i :: 0 <= i < |results| && AdminRecordsDecode(results[..i]) && RecordError(results[i]) == Some(r.error)
  {
    var admins: seq<ChatMember> := [];
    var i := 0;
    while i < |results|
      invariant 0 <= i <= |results|
      invariant AdminRecordsDecode(results[..i])
      invariant admins == Admins(results[..i])
    {
      var result := results[i];
      if result.status.None? {
        assert RecordError(results[i]) == Some(KeyError("status"));
        return Err(KeyError("status"));
      }
      var status := ParseChatMemberStatus(result.status.value);
      if status.Some? && !result.wellFormed {
        assert RecordError(results[i]) == Some(ValidationError);
        return Err(ValidationError);
      }
      AdminsStep(results, i);
      if status.Some? {
        admins := admins + [ToChatMember(result)];
      }
      i := i + 1;
    }
    assert results[..i] == results;
    r := Ok(admins);
  }

  /** An outbound call the model records instead of sending. */
  datatype ApiCall =
    | SendMessage(chatId: int, text: string, replyToMessageId: Option<int>, parseMode: string, disableWebPagePreview: bool)
    | RestrictChatMember(chatId: int, userId: int, permissions: ChatPermissions, untilDate: int)
    | GetChatAdministratorsCall(chatId: int)

  /** `send_message` with its defaults: HTML parse mode, previews enabled. */
  function SendMessageCall(chatId: int, text: string, replyTo: Option<int>): ApiCall
  {
    SendMessage(chatId, text, replyTo, "html", false)
  }
}
