/** The values the matchers pass around: lifecycle event types, handler
    tokens, matched tokens, handlers with their declared parameters, help
    entries and the record of one handler invocation. */
module CoreModels {
  import opened Wrappers
  import TransportModels

  /** The lifecycle events a matcher can be registered for. */
  datatype EventType = Message | Startup | Shutdown

  /** The member name of each event type. */
  function EventName(e: EventType): string
  {
    match e
    case Message => "MESSAGE"
    case Startup => "STARTUP"
    case Shutdown => "SHUTDOWN"
  }

  /** `EventTypes[name]`: look an event type up by its member name. */
  function EventByName(name: string): (r: Option<EventType>)
    ensures r.Some? ==> EventName(r.value) == name
    ensures r.None? ==> forall e: EventType :: EventName(e) != name
  {
    if name == "MESSAGE" then Some(Message)
    else if name == "STARTUP" then Some(Startup)
    else if name == "SHUTDOWN" then Some(Shutdown)
    else None
  }

  /** A hashable handler key: a string, an event type, a tuple of hashables,
      or any other hashable value (stood for by an integer). */
  datatype Token = Str(s: string) | Event(e: EventType) | Tuple(items: seq<Token>) | Other(id: int)

  /** The values offered to handlers as keyword arguments. `Opaque` stands for
      any other value a matcher puts into a match's keyword arguments. */
  datatype Value =
    | Api
    | MessageArg(message: Option<TransportModels.Message>)
    | TokenArg(token: Token)
    | Args(items: seq<string>)
    | Opaque(id: int)

  /** A successful match: the token whose handlers run, its positional
      arguments and extra keyword arguments. */
  datatype MatchedToken = MatchedToken(token: Token, args: seq<string>, kwargs: map<string, Value>)

  /** A handler: an identity and the names of the parameters it declares. */
  datatype Handler = Handler(id: nat, params: set<string>)

  /** One help entry: the tokens as registered and the help text. */
  datatype HelpMessage = HelpMessage(tokens: seq<Token>, message: Option<string>)

  /** One invocation of a handler with the keyword arguments it received. */
  datatype Invocation = Invocation(handler: Handler, kwargs: map<string, Value>)
}
