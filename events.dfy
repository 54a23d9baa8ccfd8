/** The two hooks `EventsMatcher` overrides: its token cast and its check. */
module Events {
  import opened Wrappers
  import opened Strings
  import opened CoreModels
  import TransportModels

  /** `EventsMatcher._cast_token`: a string names an event type by its
      upper-cased text (a `KeyError` naming that text when none has that
      name); any other token is returned unchanged. */
  function CastEventToken(t: Token): Result<Token, string>
  {
    match t
    case Str(s) =>
      (match EventByName(Upper(s))
       case Some(e) => Ok(Event(e))
       case None => Err(Upper(s)))
    case _ => Ok(t)
  }

  /** The cast succeeds on a string exactly when its upper-cased text is a
      member name, yielding that member, and leaves non-strings alone. */
  lemma CastEventTokenSpec(t: Token)
    ensures t.Str? ==> (CastEventToken(t).Ok? <==> Upper(t.s) in {"MESSAGE", "STARTUP", "SHUTDOWN"})
    ensures t.Str? && CastEventToken(t).Ok? ==> CastEventToken(t) == Ok(Event(EventByName(Upper(t.s)).value))
    ensures t.Str? && CastEventToken(t).Err? ==> CastEventToken(t) == Err(Upper(t.s))
    ensures !t.Str? ==> CastEventToken(t) == Ok(t)
  {
    if t.Str? && Upper(t.s) in {"MESSAGE", "STARTUP", "SHUTDOWN"} {
      assert EventByName(Upper(t.s)).Some?;
    }
  }

  /** A member's own name casts to that member. */
  lemma CastEventName(e: EventType)
    ensures CastEventToken(Str(EventName(e))) == Ok(Event(e))
  {
    UpperOfUpper(EventName(e));
  }

  lemma UpperOfUpper(name: string)
    requires forall k :: 0 <= k < |name| ==> !('a' <= name[k] <= 'z')
    ensures Upper(name) == name
  {
  }

  /** Two strings that differ only in the case of ASCII letters register under
      the same key. */
  lemma CastIgnoresCase(a: string, b: string)
    requires Upper(a) == Upper(b)
    ensures CastEventToken(Str(a)) == CastEventToken(Str(b))
  {
  }

  /** Any spelling of a member's name, in any mix of letter case, casts to
      that member (so "startup" registers under `STARTUP`). */
  lemma CastAnyCase(a: string, e: EventType)
    requires Upper(a) == EventName(e)
    ensures CastEventToken(Str(a)) == Ok(Event(e))
  {
  }

  /** `EventsMatcher._check`: every token and every message match, as the
      `MESSAGE` event with no arguments. */
  function CheckEvent(t: Token, m: TransportModels.Message): Option<MatchedToken>
  {
    Some(MatchedToken(Event(Message), [], map[]))
  }
}
