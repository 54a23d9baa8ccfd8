# chatushka / twowires — a verified model of the bot core

Chatushka is a Telegram chat bot. Its core has six parts:

- **Matchers.** A matcher keeps a table from a token to the handlers registered under it. It also keeps a list of help entries and a list of child matchers. `add_handler` normalises the tokens and stores the handler. `match` checks each of its tokens against a message, calls the handlers of every match, and then asks its children. `call` runs the handlers of a token, giving each only the keyword arguments it declares. `EventsMatcher` casts a string token to a lifecycle event type, and matches every message as `MESSAGE`.
- **The Telegram Bot API client.**
  - It builds method URLs and checks the response envelope.
  - It folds a `getUpdates` result into the valid updates and the latest update id.
  - It filters a `getChatAdministrators` result down to the owner and the administrators.
- **The two runtimes.**
  - `Chatushka` registers matchers and threads the polling offset from cycle to cycle. For each update and each matcher it starts one dispatch. Nothing catches an exception, so a raising poll or a raising dispatch ends the loop.
  - `WatchDogBot` derives from an events matcher and holds child matchers. It polls, and tries every matcher on every update. A matcher's error is handled by its debug flag. An error of the poll itself is raised outside the `try` and ends the loop in both modes. It calls its STARTUP handlers before polling and its SHUTDOWN handlers when a signal arrives.
- **Records.** The records exchanged with the API: users with their readable name, chats, messages and updates, and the chat type and member status enumerations.
- **The helper commands.** `id` replies with the sender's id, and with the chat's id when the sender administers the chat. `ping` replies "pong" when the message text contains "ping", and the Russian "понг" otherwise.
- **Muting.** A member is restricted, and then the bot announces the outcome in the chat.

The Dafny modules follow the source files:

| module | file | models |
|---|---|---|
| `Wrappers` | — | `Option` and `Result` |
| `Strings` | — | the parts of Python's `str` the code uses: `strip`, `upper`, `in`, `join`, `str(int)`, and `format` with named fields |
| `TransportModels` | `chatushka/core/transports/models.py` | the API records |
| `TelegramApi` | `chatushka/core/transports/telegram_bot_api.py` | the client, with decoded JSON as input and outbound calls as values |
| `CoreModels` | — | event types, tokens, matches, handlers, help entries and invocations |
| `Events` | `chatushka/core/matchers/events.py` | the `EventsMatcher` hooks |
| `Matchers` | `chatushka/core/matchers/base.py` | the class `Matcher` |
| `Chatushka` | `chatushka/_chatushka.py` | the class `Chatushka` |
| `WatchDog` | `twowires/watch_dog_bot.py` | the class `WatchDogBot`, built on the events matcher of `Matchers` |
| `Helpers` | `chatushka/bot/matchers/helpers.py` | the `id` and `ping` commands |
| `Mute` | `chatushka/bot/internal/mute.py` | muting |

In `Matchers`, `MatcherBase` and `EventsMatcher` are one class. Its constant `kind` selects which `_cast_token` and `_check` it uses.

- **The handler table.** The matcher keeps its `defaultdict` of lists as a map together with the insertion order of its keys.
- **The children.** They are a sequence of `Matcher` objects. The ghost footprint `Repr` stops a matcher from containing itself.
- **The snapshot.** `Tree()` is a pure snapshot of a matcher and, recursively, of its children. What `match` and `make_help_message` do is specified on that snapshot by functions: `TreeMatch`, `TreeHelp` and `Aggregate`.

Every method that loops in the source loops here too. Each is proved equal to a specification function, and the properties are proved about that function:

- `add_handler`'s two loops;
- `match`'s two loops;
- the loops of `get_updates` and `get_chat_administrators`;
- `id_handler`'s loop over the administrators;
- the polling loops of the runtimes;
- `serve`'s signal loop.

The code is followed where it differs from a plain reading of what it is for:

- **`logger.erro`.** In `WatchDogBot._loop`, the non-debug error branch calls `logger.erro`, which is not a logger method. That call raises `AttributeError` itself, so a raising matcher ends the loop in both modes. The model ends the loop in both modes.
- **Signals.** A signal schedules `_close`, which only calls the SHUTDOWN handlers. It does not stop the loop.
- **The first failure template.** The first `MuteMessages.LOOSER` template has a `{time}` field that `send_mute_request` never supplies. Choosing it raises `KeyError('time')`, and nothing is sent after the restriction. `Mute.FirstLooserFails` proves this.
- **A missing offset.** In `WatchDogBot._loop`, a non-empty batch with no latest id would make `None + 1` raise. The model keeps that as the error `LatestIdMissing`.

## Model

| member | source | states |
|---|---|---|
| `Strings.StripSpec` | chatushka/core/matchers/base.py:56-57 | `strip` returns a contiguous slice of its text. Everything cut before and after it is white space, and the result neither starts nor ends with white space. |
| `Strings.StripBounds` | chatushka/core/matchers/base.py:56-57 | The stripped text is the slice `s[i..j]`, with only white space before `i` and after `j`. |
| `Strings.StripIdempotent` | chatushka/core/matchers/base.py:56-57 | Stripping twice gives the same as stripping once. |
| `Strings.Upper` | chatushka/core/matchers/events.py:17 | `upper` keeps the length and upper-cases each character in place. |
| `Strings.Contains` | chatushka/bot/matchers/helpers.py:37 | `p in s` holds exactly when `p` occurs at some position of `s`. |
| `Strings.Format` | chatushka/bot/internal/mute.py:63-71 | `str.format` fails exactly when some field has no argument, and the error names a field that has none. |
| `Strings.FormatFirstMissing` | chatushka/bot/internal/mute.py:64-71 | Formatting raises `KeyError` naming the first field, left to right, that has no argument. |
| `Strings.FormatShowsArgument` | chatushka/bot/internal/mute.py:56-60 | A successful format has an argument for every field, and that argument occurs in the text. |
| `TransportModels.ChatTypeAdmits` | chatushka/core/transports/models.py:7-10 | The chat type parses exactly "group", "supergroup" and "private". Each member round-trips through its value. |
| `TransportModels.ChatMemberStatusAdmits` | chatushka/core/transports/models.py:13-15 | The status parses exactly "creator" and "administrator". Each member round-trips through its value. |
| `TransportModels.ReadableNameShape` | chatushka/core/transports/models.py:26-28 | The readable name is the rendered first name when the last name is absent or empty. Otherwise it is the first name, a space and the last name. It always starts with the rendered first name. |
| `TelegramApi.MethodUrlRoundTrip` | chatushka/core/transports/telegram_bot_api.py:26-34 | A method URL starts with the API prefix. For a method name without "/", the URL splits back into the token and the method name. |
| `TelegramApi.CheckApiResponseSpec` | chatushka/core/transports/telegram_bot_api.py:36-47 | A response passes exactly when it is an object whose "ok" is truthy and which has "result". It then yields "result". A missing or falsy "ok" raises `ValueError`. |
| `TelegramApi.GetUpdatesParams` | chatushka/core/transports/telegram_bot_api.py:71-73 | "offset" is sent exactly for a truthy offset, and carries that offset. No other parameter is sent. |
| `TelegramApi.LatestOfIsOffsetOrId` | chatushka/core/transports/telegram_bot_api.py:80-83 | The latest id is the given offset or one of the records' ids. |
| `TelegramApi.LatestOfIsMaximum` | chatushka/core/transports/telegram_bot_api.py:80-83 | With positive ids and a non-negative offset, the latest id after a non-empty batch is present and is at least every id. It is also at least a truthy offset. |
| `TelegramApi.ValidUpdatesSelection` | chatushka/core/transports/telegram_bot_api.py:84-89 | The returned updates are exactly the valid records, in input order, and there are never more of them than records. |
| `TelegramApi.GetUpdates` | chatushka/core/transports/telegram_bot_api.py:79-90 | A record without "update_id" raises `KeyError`. Otherwise the method returns the valid updates and the folded latest id. An empty batch returns no updates and the offset unchanged. |
| `TelegramApi.AdminsSelection` | chatushka/core/transports/telegram_bot_api.py:134-141 | The administrators are exactly the "creator" and "administrator" records, in input order. Creators become owners and administrators become administrators. |
| `TelegramApi.GetChatAdministrators` | chatushka/core/transports/telegram_bot_api.py:134-141 | The method succeeds exactly when every record has a status and every kept record validates, and then returns the filtered list. Otherwise it raises the error of the first record, in input order, that fails: `KeyError("status")` for a missing status, a validation error for a kept record that does not validate. |
| `CoreModels.EventByName` | chatushka/core/matchers/events.py:17 | Looking an event type up by name finds the member with that name, and finds nothing when no member has it. |
| `Events.CastEventTokenSpec` | chatushka/core/matchers/events.py:12-18 | A string casts exactly when its upper-cased text is MESSAGE, STARTUP or SHUTDOWN, and yields that member. Otherwise it fails with that text. A non-string token, a tuple included, is returned unchanged. |
| `Events.CastEventName` | chatushka/core/matchers/events.py:16-17 | A member's own name casts to that member. |
| `Events.CastIgnoresCase` | chatushka/core/matchers/events.py:16-17 | Two strings equal after upper-casing cast alike. |
| `Events.CastAnyCase` | chatushka/core/matchers/events.py:16-17 | Any letter-case spelling of a member's name, such as "startup", casts to that member. |
| `Matchers.AppendSpec` | chatushka/core/matchers/base.py:61-62 | One append keeps the table well formed and adds the handler at the end of its token's list. No other list changes. The key order only grows, by that token when it is new. |
| `Matchers.AppendAllOrder` | chatushka/core/matchers/base.py:61-62 | Registering along a token sequence keeps the table well formed. Old keys stay, and the keys afterwards are the old ones and the registered ones. |
| `Matchers.AppendAllSpec` | chatushka/core/matchers/base.py:61-62 | Each token's list is its old list followed by one copy of the handler per occurrence of the token. A token that does not occur keeps its list. |
| `Matchers.AppendAllConcat` | chatushka/core/matchers/base.py:55-62 | Registering along `a` and then along `b` is the same as registering along `a + b`. |
| `Matchers.RegistrationFails` | chatushka/core/matchers/base.py:55-62 | Registration fails exactly when some cast fails. |
| `Matchers.RegistrationSingles` | chatushka/core/matchers/base.py:58-62 | When every cast yields one token, registration succeeds with those tokens in order. |
| `Matchers.RegistrationStuck` | chatushka/core/matchers/base.py:55-62 | After the first failing cast, the later raw tokens register nothing. |
| `Matchers.RegistrationStep` | chatushka/core/matchers/base.py:55-62 | After a registration that has not failed, a successful cast adds its tokens, and a failing cast ends the registration with its error. |
| `Matchers.PrepareTokenShape` | chatushka/core/matchers/base.py:56-60 | A plain matcher prepares a raw token into itself, stripped, so a tuple stays one key. An events matcher spreads a tuple into its items, unstripped and uncast, and prepares any other raw token into exactly one token. |
| `Matchers.PrepareAllSpec` | chatushka/core/matchers/base.py:55-62 | Preparing fails exactly when some raw token fails to cast. When it succeeds and no tuple is spread, token `k` is the prepared form of raw token `k`. |
| `Matchers.EventsSpreadsTuple` | chatushka/core/matchers/events.py:16-18 | A tuple raw token given to an events matcher adds its items as keys of their own, uncast and in order. |
| `Matchers.BasePrepareAll` | chatushka/core/matchers/base.py:113-117 | A plain matcher never fails, and registers each raw token stripped if it is a string and unchanged otherwise. |
| `Matchers.InvocationsAt` | chatushka/core/matchers/base.py:104-110 | There is one invocation per handler, in list order. Invocation `k` is of handler `k`, with the offered arguments it declares. |
| `Matchers.CallSpecShape` | chatushka/core/matchers/base.py:98-110 | A token without handlers invokes nothing. Otherwise each handler is invoked once, in order. Each receives only parameters it declares. "api", "message" and "token" take the call's own values, and every other key comes from the given kwargs. |
| `Matchers.BaseOwnMatchesNothing` | chatushka/core/matchers/base.py:120-125 | A plain matcher matches none of its own tokens and invokes nothing itself. |
| `Matchers.EventsOwnMatches` | chatushka/core/matchers/base.py:78-86 | An events matcher reports one `MESSAGE` match per key of its table. Each match invokes the handlers stored under `MESSAGE`, with "args" empty. |
| `Matchers.AllBaseMatchesNothing` | chatushka/core/matchers/base.py:72-89 | A tree made only of plain matchers matches nothing and invokes nothing. |
| `Matchers.AllBaseForestNothing` | chatushka/core/matchers/base.py:87-88 | Any first `j` children of such a tree match nothing. |
| `Matchers.AggregateForestAt` | chatushka/core/matchers/base.py:42-43 | Child `k` of an aggregated forest is the aggregate of child `k`. |
| `Matchers.Matcher.constructor` | chatushka/core/matchers/base.py:19-22 | A new matcher has an empty table, no children and no help entries, and owns only itself. |
| `Matchers.Matcher.AddHandler` | chatushka/core/matchers/base.py:46-64 | A single token is wrapped into a tuple, unless it is a tuple itself, which is iterated. The handler is appended under every prepared token until a cast fails, and the failure is reported. Exactly one help entry with the tokens as passed is added, when the registration succeeds and `include_in_help` is set. The children stay the same. |
| `Matchers.Matcher.RegisterAll` | chatushka/core/matchers/base.py:55-62 | The outer loop leaves the table equal to registering along all prepared tokens, and reports the first failed cast. |
| `Matchers.Matcher.AppendUnder` | chatushka/core/matchers/base.py:61-62 | The inner loop appends the handler under each token in turn. |
| `Matchers.Matcher.Decorate` | chatushka/core/matchers/base.py:24-38 | The decorator form registers the handler with its help message and includes it in the help. |
| `Matchers.Matcher.AddMatchers` | chatushka/core/matchers/base.py:66-70 | The given matchers are appended to the children, in order. The table and the help entries stay the same. |
| `Matchers.Matcher.Call` | chatushka/core/matchers/base.py:91-110 | `call` makes exactly the invocations `CallSpec` lists for the token. |
| `Matchers.Matcher.MatchOwn` | chatushka/core/matchers/base.py:77-86 | The first loop of `match` yields the matches and the invocations of the table's keys, in key order. |
| `Matchers.Matcher.MatchChildren` | chatushka/core/matchers/base.py:87-88 | The second loop of `match` yields the children's results, in order. |
| `Matchers.Matcher.Match` | chatushka/core/matchers/base.py:72-89 | `match` yields its own matches and then every child's, as `TreeMatch` of its snapshot. |
| `Matchers.Matcher.MakeHelpMessage` | chatushka/core/matchers/base.py:40-44 | It returns its own help entries followed by every child's aggregate, in order. Afterwards every matcher of the tree holds its own aggregate: the shared list is extended in place. |
| `Chatushka.DispatchPlanOrder` | chatushka/_chatushka.py:157-166 | Matcher `j` on update `i` is dispatched at position `i * \|matchers\| + j`, so the order is update-major. |
| `Chatushka.CycleOutcome` | chatushka/_chatushka.py:149-167 | A cycle goes on exactly when the poll succeeds and its batch is empty or no dispatch raises, and then with the poll's offset. A successful poll starts all \|updates\| × \|matchers\| dispatches, even when one raises. A raising poll starts none and ends the cycle with its exception. |
| `Chatushka.LoopThreading` | chatushka/_chatushka.py:169-181 | Cycle `k` polls from the offset the previous cycle ended with, none for the first, and starts the dispatches of its poll. Every cycle but the last goes on, and the last cycle's end is the run's. |
| `Chatushka.LoopStops` | chatushka/_chatushka.py:172-181 | Once a cycle has raised, a larger bound adds no cycle. |
| `Chatushka.FirstCycleRaises` | chatushka/_chatushka.py:154-181 | When the first cycle raises, that cycle, with all its dispatches started, is the whole run for every bound. |
| `Chatushka.Chatushka.constructor` | chatushka/_chatushka.py:27-43 | A new bot has the normalised prefixes, no matchers and an empty state. |
| `Chatushka.Chatushka.AddMatcher` | chatushka/_chatushka.py:45-53 | The matcher goes last, and a command matcher first receives the bot's prefixes. The state stays the same. |
| `Chatushka.Chatushka.AddCmd` | chatushka/_chatushka.py:55-69 | Exactly one command matcher is appended, carrying the bot's prefixes. By default `case_sensitive` is false and `chance_rate` is 1.0. |
| `Chatushka.Chatushka.AddRegex` | chatushka/_chatushka.py:89-101 | Exactly one regular-expression matcher is appended. By default `chance_rate` is 1.0. |
| `Chatushka.Chatushka.AddEvent` | chatushka/_chatushka.py:119-131 | Exactly one event matcher is appended. By default `chance_rate` is 1.0. |
| `Chatushka.Chatushka.Decorate` | chatushka/_chatushka.py:71-147 | A `cmd`, `regex` or `event` decorator appends exactly what the corresponding `add_*` does, with the decorated function as the action. |
| `Chatushka.Chatushka.CheckUpdates` | chatushka/_chatushka.py:149-167 | One cycle polls from the given offset and makes exactly the dispatches and the end `CycleSpec` gives: nothing for a raising or empty poll, otherwise every update to every matcher, update-major, ending raised when one dispatch raises. |
| `Chatushka.Chatushka.Loop` | chatushka/_chatushka.py:169-181 | The loop, bounded by `cycles`, yields the offsets, the dispatches of each cycle and the end of `LoopRun`, stopping after the first cycle that raises. |
| `WatchDog.FirstFailure` | twowires/watch_dog_bot.py:37-38 | The first matcher that raises on an update, or none when none of them raises. |
| `WatchDog.TriedOn` | twowires/watch_dog_bot.py:37-38 | On one update the matchers are tried in list order with the update's message, up to and including the first that raises. |
| `WatchDog.BatchRunFailure` | twowires/watch_dog_bot.py:35-41 | A batch completes exactly when no matcher raises on any update. Otherwise it stops at the first raising pair in update-major order. |
| `WatchDog.BatchRunLength` | twowires/watch_dog_bot.py:35-38 | A completed batch makes \|updates\| × \|matchers\| attempts. A stopped one makes `i * n + j + 1`. |
| `WatchDog.BatchRunAttempt` | twowires/watch_dog_bot.py:35-38 | Each attempt before the stopping point is made at position `i * n + j`, with the message of update `i`. |
| `WatchDog.BatchRunStops` | twowires/watch_dog_bot.py:39-41 | Once a prefix of the batch has raised, the rest of the batch is not tried. |
| `WatchDog.StepOutcome` | twowires/watch_dog_bot.py:33-43 | An iteration goes on exactly when its batch is empty, or no matcher raises and there is a latest id. An empty batch keeps the offset, and a completed non-empty one continues from the latest id + 1. A matcher's error propagates only in debug mode. Otherwise the error is the `AttributeError` of `logger.erro`. |
| `WatchDog.LoopLength` | twowires/watch_dog_bot.py:32-44 | A bound above zero makes at least one iteration, and a run that makes fewer iterations than its bound has raised. |
| `WatchDog.LoopEntry` | twowires/watch_dog_bot.py:33-43 | Entry `k` of a run is iteration `k`, from the offset it was polled with. |
| `WatchDog.LoopThreading` | twowires/watch_dog_bot.py:31-43 | The first poll has no offset, and each later poll uses the offset the previous iteration continued with. |
| `WatchDog.LoopRaisedPrefix` | twowires/watch_dog_bot.py:39-42 | A run that raised at iteration `k` is the same for any larger bound. |
| `WatchDog.LoopOwnLength` | twowires/watch_dog_bot.py:32-43 | A run never makes more iterations than its bound, and is the run bounded by its own length. |
| `WatchDog.ContinuesPastBatch` | twowires/watch_dog_bot.py:33-43 | For an answer decoded by `get_updates`: a record without an id ends the loop with the poll's `KeyError`, in both modes. When some record validates and no matcher raises, the loop goes on from an offset above every id of the answer, valid or not. When no record validates the batch is empty and the offset stays, so the same records are asked for again. |
| `WatchDog.PollErrorEndsLoop` | twowires/watch_dog_bot.py:32-44 | A poll that raises, outside the `try`, makes its iteration the last one: no matcher is tried in it, and the run ends with the poll's exception, whatever the debug flag. |
| `WatchDog.RepollsEmptyBatches` | twowires/watch_dog_bot.py:32-44 | While every poll from no offset succeeds with an empty batch, the loop never raises, makes one iteration per bound step and polls from no offset each time. |
| `WatchDog.LeadingSupported` | twowires/watch_dog_bot.py:51-55 | The installed signals are the longest supported prefix. The next signal, if any, is unsupported. |
| `WatchDog.WatchDogBot.constructor` | twowires/watch_dog_bot.py:13-22 | A new bot is an empty events matcher whose children are the given matchers, and which has the given token and debug flag. |
| `WatchDog.WatchDogBot.AddMatcher` | twowires/watch_dog_bot.py:24-28 | The matcher is appended last, and nothing else changes. |
| `WatchDog.WatchDogBot.Step` | twowires/watch_dog_bot.py:33-43 | The nested loops of one iteration make exactly the attempts and the outcome of `StepSpec`. |
| `WatchDog.WatchDogBot.Loop` | twowires/watch_dog_bot.py:30-44 | The loop, bounded by `cycles`, yields the offsets, the attempts and the outcome of `LoopRun`. A raising poll ends it with no attempt in that iteration. |
| `WatchDog.WatchDogBot.Close` | twowires/watch_dog_bot.py:46-47 | `_close` calls exactly the SHUTDOWN handlers. |
| `WatchDog.WatchDogBot.Deliver` | twowires/watch_dog_bot.py:52-53 | A signal runs `_close` exactly when a handler was installed for it. |
| `WatchDog.WatchDogBot.InstallSignalHandlers` | twowires/watch_dog_bot.py:51-55 | SIGINT and then SIGTERM are installed, stopping at the first unsupported one. |
| `WatchDog.WatchDogBot.Serve` | twowires/watch_dog_bot.py:49-57 | `serve` installs the signals, then calls the STARTUP handlers, then polls. |
| `Helpers.LineTemplateText` | chatushka/bot/matchers/helpers.py:19 | The line template formats to the id kind, ": &lt;pre&gt;", the id and "&lt;/pre&gt;". |
| `Helpers.ReplaceValue` | chatushka/bot/matchers/helpers.py:23 | `ids \| {key: value}` on a present key keeps every position and gives that key the new value. |
| `Helpers.CollectIds` | chatushka/bot/matchers/helpers.py:20-23 | The ids are the sender's first. The chat's follow, exactly when some administrator is the sender, and they are added once however many match. |
| `Helpers.ReplyTextLines` | chatushka/bot/matchers/helpers.py:24 | The reply is the sender's line and, exactly for an administrator, a newline and the chat's line. |
| `Helpers.IdHandler` | chatushka/bot/matchers/helpers.py:14-29 | The handler asks for the chat's administrators, then replies in the chat to the message with the reported ids. A failed request raises and sends nothing. |
| `Helpers.PingAnswer` | chatushka/bot/matchers/helpers.py:37 | The answer is "pong" exactly when the text contains "ping", and "понг" otherwise. |
| `Helpers.PingHandler` | chatushka/bot/matchers/helpers.py:33-42 | The handler makes one call, a reply in the message's chat to the message, with the ping answer. |
| `Helpers.HandlersFor` | chatushka/bot/matchers/helpers.py:13-32 | The handlers under a command are those of the registrations that list it, in order. There are none exactly when no registration lists it. |
| `Helpers.RegisteredCommands` | chatushka/bot/matchers/helpers.py:13-32 | "id" runs the id handler alone, "ping" and "пинг" run the ping handler alone, and no other command runs anything. |
| `Mute.Minutes` | chatushka/bot/internal/mute.py:59 | The minutes shown are the floor of the seconds divided by 60. |
| `Mute.AccidentAnnouncement` | chatushka/bot/internal/mute.py:53-61 | Every accident template formats, and its text shows the restricted user's id, name and minutes. |
| `Mute.FirstLooserFails` | chatushka/bot/internal/mute.py:30-33 | The first failure template formats to `KeyError('time')`. |
| `Mute.SecondLooserAnnouncement` | chatushka/bot/internal/mute.py:34-35 | The second failure template formats, and its text shows the initiator's and the victim's names. |
| `Mute.SendMuteRequest` | chatushka/bot/internal/mute.py:39-73 | The member is restricted first, in the message's chat, with no send rights, until `now` plus the restriction. An error from `check_api_response`, such as the `ValueError` of a refused restriction, propagates and nothing is sent. A truthy result sends the chosen accident text to the chat without a reply target. A falsy one sends the chosen failure text as a reply to the message, or the first failure template raises `KeyError('time')` and nothing more is sent. |

## Left out

- Network input and output:
  - HTTP, `_call_api`, `AsyncClient` and `response.json()` are left out.
  - A decoded response is an input value.
  - The decoded JSON values, `TelegramApi.Json`, have no floating-point numbers. An "ok" or a "result" such as `0.0`, which Python treats as falsy, cannot be written, and neither can a float id or a float restriction answer. Telegram sends integers and booleans in these places.
  - Every outbound request is an `ApiCall` value in a returned trace.
  - The transport that `Chatushka` and `WatchDogBot` poll is a function argument of the cycle and the offset. For both runtimes it returns a batch or the name of the exception the poll raised.
- pydantic:
  - Validation is a flag per record: a raw record with or without its message, a member record that validates or not.
  - Aliasing and `update_forward_refs` are library plumbing.
- Concurrency: `asyncio` and its `gather`, `ensure_future` and `sleep` are left out. `Chatushka`'s fan-out is the ordered sequence of dispatches, all of them started. When several dispatches raise, which exception `gather` propagates depends on scheduling, and the model records only that one raised. A signal is an explicit event, `Deliver`.
- Handlers:
  - A handler is an identity and the set of parameter names it declares. This replaces `inspect.signature`.
  - Whether a handler is a coroutine makes no difference to the model.
  - What a handler does when it is called is outside the model.
- The matchers of both runtimes: whether each one raises on each update is an input set, `fails`, per cycle. What a matcher does beyond that is not part of the loops.
- Muting inputs:
  - `random.choice` is an index argument.
  - `datetime.now()` is an integer `now`.
  - The restriction is a whole number of seconds instead of a `timedelta` with float seconds.
  - Telegram's answer to the restriction is a decoded JSON argument. `check_api_response` turns it into the result whose truthiness is `is_success`, or into an exception.
- Source outside this model:
  - `CommandMatcher`, `CommandsMatcher`, `RegExMatcher`, `RegexMatcher` and `EventMatcher` are not part of this model: their parsing, whitelists and `chance_rate` gating. `Chatushka` keeps its matchers as records of their constructor arguments, and a chance rate is a `real`.
  - `chatushka._matchers`, `chatushka._models`, `chatushka._transport` and `chatushka._constants`, which `chatushka/_chatushka.py` imports, are not part of this model. Their matchers are the records above, `Events` is a number, and the transport is the poll argument.
  - `twowires.matchers` and `twowires.transports`, which `twowires/watch_dog_bot.py` imports, are not part of this model. Their `EventsMatcher` and `EventTypes` are taken to behave as `chatushka/core/matchers/events.py` and `base.py`, which `Matchers` models, and their `TelegramBotApi.get_updates` as the fold of `chatushka/core/transports/telegram_bot_api.py`.
  - `chatushka/core/models.py` is not part of this model. `EventTypes` is taken to have the members MESSAGE, STARTUP and SHUTDOWN, and `MatchedToken` to default to no args and no kwargs.
  - `WatchDogBot`'s batches are abstract, and `WatchDog.ContinuesPastBatch` uses `TelegramApi`'s fold for them.
- The `Chatushka` lifespan context manager and all logging are left out. `run` is `_loop`.
- `while True`: each runtime's loop runs for a bounded number of cycles, `cycles`, and the properties hold for every bound.
- `chatushka/__main__.py`, `chatushka/bot/matchers/welcoming.py`, `twowires/matchers/protocols.py` and `tests/test_transport.py` are not part of this model.
  - The test exercises transports that are not part of this model.
  - The protocol declares no behaviour.
- `Strings.Upper`: it upper-cases the ASCII letters only, and does not model Unicode case mapping.
- Sets among the tokens of `add_handler` are taken in their iteration order, given as a sequence.
- A single raw token that is a list or a set is not modelled; a tuple is, as `Tuple`. An events matcher would spread a list as it spreads a tuple, and a plain matcher would raise `TypeError` on an unhashable key.
- `Matchers.Matcher.AddMatchers`: it requires the new matchers not to contain the receiver, so that the tree stays finite. Python accepts a cycle, and `match` then recurses until it raises `RecursionError`.
- `Matchers.Matcher.MakeHelpMessage`: it requires that no matcher object be shared between two branches of the tree. With sharing, Python's in-place `+=` aliases lists in ways the snapshot does not describe.
- `Helpers.IdHandler`: the reply ends the handler. The `Message` that `send_message` returns is not modelled.
