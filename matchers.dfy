/** `MatcherBase` and its `EventsMatcher` variant: a table from token to the
    ordered list of its handlers, a list of help entries and a list of child
    matchers; registration, dispatch of one message, direct calls by token
    and the aggregation of help entries. */
module Matchers {
  import opened Wrappers
  import opened Strings
  import opened CoreModels
  import opened Events
  import TransportModels

  /** Which `_cast_token` and `_check` a matcher uses: `MatcherBase`'s or `EventsMatcher`'s. */
  datatype Kind = Base | EventsKind

  /** `s` repeated `n` times. */
  function Repeat<T>(s: seq<T>, n: nat): seq<T>
  {
    if n == 0 then [] else Repeat(s, n - 1) + s
  }

  /** The `handlers` defaultdict: the list of each token, and the tokens in
      the order they were first inserted (the order `keys()` yields them). */
  datatype HandlerTable = HandlerTable(lists: map<Token, seq<Handler>>, order: seq<Token>)

  /** Keys are listed once each, exactly the tokens of the table, and a list
      exists only once something was appended to it. */
  ghost predicate TableInv(t: HandlerTable)
  {
    && (forall i, j :: 0 <= i < j < |t.order| ==> t.order[i] != t.order[j])
    && (forall tok :: tok in t.lists <==> tok in t.order)
    && (forall tok :: tok in t.lists ==> t.lists[tok] != [])
  }

  /** `handlers.get(tok)`, with a missing list read as empty. */
  function Lookup(t: HandlerTable, tok: Token): seq<Handler>
  {
    if tok in t.lists then t.lists[tok] else []
  }

  /** `handlers[tok].append(h)`: a missing key is inserted at the end of the order. */
  function Append(t: HandlerTable, tok: Token, h: Handler): HandlerTable
  {
    if tok in t.lists then HandlerTable(t.lists[tok := t.lists[tok] + [h]], t.order)
    else HandlerTable(t.lists[tok := [h]], t.order + [tok])
  }

  /** Appending `h` under each token of `toks`, in order. */
  function AppendAll(t: HandlerTable, toks: seq<Token>, h: Handler): HandlerTable
  {
    if toks == [] then t else Append(AppendAll(t, toks[..|toks| - 1], h), toks[|toks| - 1], h)
  }

  /** How often `tok` occurs in `toks`. */
  function Count(toks: seq<Token>, tok: Token): nat
  {
    if toks == [] then 0 else Count(toks[..|toks| - 1], tok) + (if toks[|toks| - 1] == tok then 1 else 0)
  }

  /** One append keeps the table well formed, extends the list of `tok` by
      `h` and changes no other list; a new token goes to the end of the order. */
  lemma AppendSpec(t: HandlerTable, tok: Token, h: Handler, other: Token)
    requires TableInv(t)
    ensures TableInv(Append(t, tok, h))
    ensures Lookup(Append(t, tok, h), tok) == Lookup(t, tok) + [h]
    ensures other != tok ==> Lookup(Append(t, tok, h), other) == Lookup(t, other)
    ensures t.order <= Append(t, tok, h).order
    ensures other in Append(t, tok, h).order <==> other in t.order || other == tok
  {
    if tok !in t.lists {
      var r := Append(t, tok, h);
      assert forall i :: 0 <= i < |t.order| ==> t.order[i] != tok;
      assert forall i, j :: 0 <= i < j < |r.order| ==> r.order[i] != r.order[j] by {
        forall i, j | 0 <= i < j < |r.order| ensures r.order[i] != r.order[j] {
          if j < |t.order| {
            assert r.order[i] == t.order[i] && r.order[j] == t.order[j];
          }
        }
      }
    }
  }

  /** Registering along `toks` keeps the table well formed; old tokens keep
      their place in the order and the new ones follow them. */
  lemma {:induction false} AppendAllOrder(t: HandlerTable, toks: seq<Token>, h: Handler, tok: Token)
    requires TableInv(t)
    ensures TableInv(AppendAll(t, toks, h))
    ensures t.order <= AppendAll(t, toks, h).order
    ensures tok in AppendAll(t, toks, h).order <==> tok in t.order || tok in toks
  {
    if toks != [] {
      var init := toks[..|toks| - 1];
      var last := toks[|toks| - 1];
      AppendAllOrder(t, init, h, tok);
      AppendSpec(AppendAll(t, init, h), last, h, tok);
      assert toks == init + [last];
    }
  }

  /** Registering `h` under `toks` appends it at the end of each token's list,
      once per occurrence: every list keeps its old handlers in their order
      as a prefix, and the list of a token not in `toks` does not change. */
  lemma {:induction false} AppendAllSpec(t: HandlerTable, toks: seq<Token>, h: Handler, tok: Token)
    ensures Lookup(AppendAll(t, toks, h), tok) == Lookup(t, tok) + Repeat([h], Count(toks, tok))
    ensures Count(toks, tok) == 0 ==> Lookup(AppendAll(t, toks, h), tok) == Lookup(t, tok)
  {
    if toks != [] {
      var init := toks[..|toks| - 1];
      var last := toks[|toks| - 1];
      AppendAllSpec(t, init, h, tok);
      if last == tok {
        assert Repeat([h], Count(toks, tok)) == Repeat([h], Count(init, tok)) + [h];
      }
    }
  }

  /** Appending along `a` and then along `b` appends along `a + b`. */
  lemma {:induction false} AppendAllConcat(t: HandlerTable, a: seq<Token>, b: seq<Token>, h: Handler)
    ensures AppendAll(AppendAll(t, a, h), b, h) == AppendAll(t, a + b, h)
  {
    if b != [] {
      var init := b[..|b| - 1];
      AppendAllConcat(t, a, init, h);
      assert (a + b)[..|a + b| - 1] == a + init;
      assert (a + b)[|a + b| - 1] == b[|b| - 1];
    } else {
      assert a + b == a;
    }
  }

  /** `_cast_token`, with its result spread when it is a tuple and wrapped
      into a one-element tuple otherwise: `MatcherBase` wraps the token itself
      (so a tuple stays one key), `EventsMatcher` returns a tuple unchanged,
      so its items become keys of their own, uncast. */
  function CastToken(kind: Kind, raw: Token): Result<seq<Token>, string>
  {
    match kind
    case Base => Ok([raw])
    case EventsKind =>
      (match CastEventToken(raw)
       case Ok(t) => Ok(if t.Tuple? then t.items else [t])
       case Err(e) => Err(e))
  }

  /** A string token is stripped of surrounding white space; any other token is kept. */
  function StripToken(raw: Token): Token
  {
    if raw.Str? then Str(Strip(raw.s)) else raw
  }

  /** The tokens one raw token is registered under, or the cast's error. */
  function PrepareToken(kind: Kind, raw: Token): Result<seq<Token>, string>
  {
    CastToken(kind, StripToken(raw))
  }

  /** The `tokens` argument of `add_handler`: a single hashable, or a list,
      tuple or set of them (a set in its iteration order). */
  datatype Tokens = Single(token: Token) | Many(items: seq<Token>)

  /** The raw tokens `add_handler` iterates: a tuple passed as the single
      token is iterated itself, and any other single token is wrapped into a
      one-element tuple. */
  function AsTuple(tokens: Tokens): seq<Token>
  {
    match tokens
    case Single(t) => if t.Tuple? then t.items else [t]
    case Many(items) => items
  }

  /** The outcome of registering along the cast results `casts`, in order:
      the tokens of the casts before the first failing one, and that failure. */
  function Registration(casts: seq<Result<seq<Token>, string>>): (seq<Token>, Option<string>)
  {
    if casts == [] then ([], None)
    else
      var prev := Registration(casts[..|casts| - 1]);
      if prev.1.Some? then prev
      else
        match casts[|casts| - 1]
        case Err(e) => (prev.0, Some(e))
        case Ok(ts) => (prev.0 + ts, None)
  }

  /** The cast result of every raw token. */
  function Casts(kind: Kind, raws: seq<Token>): (r: seq<Result<seq<Token>, string>>)
    ensures |r| == |raws|
  {
    seq(|raws|, k requires 0 <= k < |raws| => PrepareToken(kind, raws[k]))
  }

  /** The tokens registered for `raws`, in order, up to the first raw token
      whose cast fails, and that failure if there is one. */
  function PrepareAll(kind: Kind, raws: seq<Token>): (seq<Token>, Option<string>)
  {
    Registration(Casts(kind, raws))
  }

  /** One more cast after a registration that has not failed: a successful
      cast adds its tokens, and a failing one ends the registration with its
      error. */
  lemma RegistrationStep(casts: seq<Result<seq<Token>, string>>, i: nat)
    requires i < |casts| && Registration(casts[..i]).1 == None
    ensures casts[i].Ok? ==> Registration(casts[..i + 1]) == (Registration(casts[..i]).0 + casts[i].value, None)
    ensures casts[i].Err? ==> Registration(casts) == (Registration(casts[..i]).0, Some(casts[i].error))
  {
    assert casts[..i + 1][..i] == casts[..i];
    if casts[i].Err? {
      RegistrationStuck(casts, i + 1);
    }
  }

  /** Registration fails exactly when some cast fails. */
  lemma {:induction false} RegistrationFails(casts: seq<Result<seq<Token>, string>>)
    ensures Registration(casts).1.None? <==> forall k :: 0 <= k < |casts| ==> casts[k].Ok?
  {
    if casts != [] {
      var n := |casts| - 1;
      var init := casts[..n];
      RegistrationFails(init);
      if Registration(init).1.Some? {
        var k :| 0 <= k < |init| && !init[k].Ok?;
        assert casts[k] == init[k];
      } else {
        assert forall k :: 0 <= k < n ==> casts[k] == init[k];
      }
    }
  }

  /** When every cast yields one token, registration yields those tokens in order. */
  lemma {:induction false} RegistrationSingles(casts: seq<Result<seq<Token>, string>>)
    requires forall k :: 0 <= k < |casts| ==> casts[k].Ok? && |casts[k].value| == 1
    ensures Registration(casts).1 == None
    ensures |Registration(casts).0| == |casts|
    ensures forall k :: 0 <= k < |casts| ==> casts[k] == Ok([Registration(casts).0[k]])
  {
    if casts != [] {
      var n := |casts| - 1;
      var init := casts[..n];
      RegistrationSingles(init);
      assert forall k :: 0 <= k < n ==> casts[k] == init[k];
      var x := casts[n].value[0];
      assert casts[n].value == [x];
      assert Registration(casts).0 == Registration(init).0 + [x];
    }
  }

  /** Once a cast has failed, the later ones add nothing. */
  lemma {:induction false} RegistrationStuck(casts: seq<Result<seq<Token>, string>>, i: nat)
    requires i <= |casts| && Registration(casts[..i]).1.Some?
    ensures Registration(casts) == Registration(casts[..i])
  {
    if i < |casts| {
      var init := casts[..|casts| - 1];
      assert init[..i] == casts[..i];
      RegistrationStuck(init, i);
    } else {
      assert casts[..i] == casts;
    }
  }

  /** A plain matcher prepares every raw token into itself, stripped; an
      events matcher spreads a tuple into its items, as they are, and
      prepares any other raw token into exactly one token. */
  lemma PrepareTokenShape(kind: Kind, raw: Token)
    ensures kind == Base ==> PrepareToken(kind, raw) == Ok([StripToken(raw)])
    ensures kind == EventsKind && raw.Tuple? ==> PrepareToken(kind, raw) == Ok(raw.items)
    ensures kind == EventsKind && !raw.Tuple? && PrepareToken(kind, raw).Ok? ==> |PrepareToken(kind, raw).value| == 1
  {
  }

  /** Registration fails exactly when some raw token fails to cast; when none
      does and no tuple is spread, each raw token is registered under exactly
      its one prepared form, in order. */
  lemma PrepareAllSpec(kind: Kind, raws: seq<Token>)
    ensures PrepareAll(kind, raws).1.None? <==> forall k :: 0 <= k < |raws| ==> PrepareToken(kind, raws[k]).Ok?
    ensures PrepareAll(kind, raws).1.None? && (kind == Base || forall k :: 0 <= k < |raws| ==> !raws[k].Tuple?) ==>
              |PrepareAll(kind, raws).0| == |raws| &&
              forall k :: 0 <= k < |raws| ==> PrepareToken(kind, raws[k]) == Ok([PrepareAll(kind, raws).0[k]])
  {
    var casts := Casts(kind, raws);
    assert forall k :: 0 <= k < |raws| ==> casts[k] == PrepareToken(kind, raws[k]);
    RegistrationFails(casts);
    if Registration(casts).1.None? && (kind == Base || forall k :: 0 <= k < |raws| ==> !raws[k].Tuple?) {
      forall k | 0 <= k < |raws| ensures casts[k].Ok? && |casts[k].value| == 1 {
        assert casts[k] == PrepareToken(kind, raws[k]);
        PrepareTokenShape(kind, raws[k]);
      }
      RegistrationSingles(casts);
    }
  }

  /** A tuple given to an events matcher after raw tokens that registered
      adds its items, uncast and in order, as keys of their own. */
  lemma EventsSpreadsTuple(raws: seq<Token>, items: seq<Token>)
    requires PrepareAll(EventsKind, raws).1 == None
    ensures PrepareAll(EventsKind, raws + [Tuple(items)]) == (PrepareAll(EventsKind, raws).0 + items, None)
  {
    var all := raws + [Tuple(items)];
    var casts := Casts(EventsKind, all);
    assert casts[..|casts| - 1] == Casts(EventsKind, raws);
    assert casts[|casts| - 1] == Ok(items);
  }

  /** A plain matcher registers each string token stripped and every other
      token unchanged; its registration never fails. */
  lemma BasePrepareAll(raws: seq<Token>)
    ensures PrepareAll(Base, raws).1 == None
    ensures |PrepareAll(Base, raws).0| == |raws|
    ensures forall k :: 0 <= k < |raws| ==> PrepareAll(Base, raws).0[k] == StripToken(raws[k])
  {
    PrepareAllSpec(Base, raws);
  }

  /** The keyword arguments `call` offers: the given ones, with "api",
      "message" and "token" overriding same-named keys. */
  function Offered(token: Token, message: Option<TransportModels.Message>, kwargs: map<string, Value>): map<string, Value>
  {
    kwargs + map["api" := Api, "message" := MessageArg(message), "token" := TokenArg(token)]
  }

  /** The keyword arguments a handler receives: the offered ones it declares. */
  function Bind(offered: map<string, Value>, params: set<string>): map<string, Value>
  {
    map p | p in params && p in offered :: offered[p]
  }

  /** The invocations `call` makes for `token`: each handler of the token
      once, in list order, with the offered arguments it declares. */
  function CallSpec(t: HandlerTable, token: Token, message: Option<TransportModels.Message>,
                    kwargs: map<string, Value>): seq<Invocation>
  {
    Invocations(Lookup(t, token), Offered(token, message, kwargs))
  }

  /** Each of `hs` invoked in order with the offered arguments it declares. */
  function Invocations(hs: seq<Handler>, offered: map<string, Value>): seq<Invocation>
  {
    if hs == [] then []
    else
      var h := hs[|hs| - 1];
      Invocations(hs[..|hs| - 1], offered) + [Invocation(h, Bind(offered, h.params))]
  }

  /** The `k`-th invocation is of the `k`-th handler. */
  lemma {:induction false} InvocationsAt(hs: seq<Handler>, offered: map<string, Value>, k: nat)
    ensures |Invocations(hs, offered)| == |hs|
    ensures k < |hs| ==> Invocations(hs, offered)[k] == Invocation(hs[k], Bind(offered, hs[k].params))
  {
    if hs != [] {
      var init := hs[..|hs| - 1];
      InvocationsAt(init, offered, k);
      if k < |init| {
        assert hs[k] == init[k];
      }
    }
  }

  /** A token with no handlers invokes nothing. Otherwise every handler of the
      token is invoked once, in registration order, and receives exactly the
      declared parameter names that are offered; "api", "message" and "token"
      carry the call's own values, every other name the given keyword value. */
  lemma CallSpecShape(t: HandlerTable, token: Token, message: Option<TransportModels.Message>,
                      kwargs: map<string, Value>, k: nat, p: string)
    ensures Lookup(t, token) == [] ==> CallSpec(t, token, message, kwargs) == []
    ensures |CallSpec(t, token, message, kwargs)| == |Lookup(t, token)|
    ensures k < |Lookup(t, token)| ==>
              var inv := CallSpec(t, token, message, kwargs)[k];
              var h := Lookup(t, token)[k];
              && inv.handler == h
              && inv.kwargs.Keys == h.params * (kwargs.Keys + {"api", "message", "token"})
              && (p in inv.kwargs && p == "api" ==> inv.kwargs[p] == Api)
              && (p in inv.kwargs && p == "message" ==> inv.kwargs[p] == MessageArg(message))
              && (p in inv.kwargs && p == "token" ==> inv.kwargs[p] == TokenArg(token))
              && (p in inv.kwargs && p !in {"api", "message", "token"} ==> inv.kwargs[p] == kwargs[p])
  {
    InvocationsAt(Lookup(t, token), Offered(token, message, kwargs), k);
  }

  /** `_check`: a plain matcher matches nothing; an events matcher matches
      every token as `MESSAGE`. */
  function Check(kind: Kind, token: Token, m: TransportModels.Message): Option<MatchedToken>
  {
    match kind
    case Base => None
    case EventsKind => CheckEvent(token, m)
  }

  /** The keyword arguments `match` passes to `call` for a match: its own,
      plus its positional arguments under "args". */
  function MatchKwargs(mt: MatchedToken): map<string, Value>
  {
    mt.kwargs + map["args" := Args(mt.args)]
  }

  /** What `match` does with the tokens `toks` of its own table (in order):
      the matches found and the invocations they trigger. */
  function OwnMatches(kind: Kind, t: HandlerTable, toks: seq<Token>, m: TransportModels.Message)
    : (seq<MatchedToken>, seq<Invocation>)
  {
    if toks == [] then ([], [])
    else
      var prev := OwnMatches(kind, t, toks[..|toks| - 1], m);
      match Check(kind, toks[|toks| - 1], m)
      case None => prev
      case Some(mt) => (prev.0 + [mt], prev.1 + CallSpec(t, mt.token, Some(m), MatchKwargs(mt)))
  }

  /** A plain matcher matches none of its own tokens and invokes nothing itself. */
  lemma {:induction false} BaseOwnMatchesNothing(t: HandlerTable, toks: seq<Token>, m: TransportModels.Message)
    ensures OwnMatches(Base, t, toks, m) == ([], [])
  {
    if toks != [] {
      BaseOwnMatchesNothing(t, toks[..|toks| - 1], m);
    }
  }

  /** The match an events matcher reports for each of its tokens. */
  const MessageMatch: MatchedToken := MatchedToken(Event(Message), [], map[])

  /** An events matcher reports one `MESSAGE` match per token of its table,
      and each of them invokes the handlers stored under `MESSAGE`, whatever
      token it came from. */
  lemma {:induction false} EventsOwnMatches(t: HandlerTable, toks: seq<Token>, m: TransportModels.Message)
    ensures OwnMatches(EventsKind, t, toks, m) ==
              (Repeat([MessageMatch], |toks|),
               Repeat(CallSpec(t, Event(Message), Some(m), map["args" := Args([])]), |toks|))
  {
    if toks != [] {
      EventsOwnMatches(t, toks[..|toks| - 1], m);
      assert MatchKwargs(MessageMatch) == map["args" := Args([])];
    }
  }

  /** A snapshot of a matcher and, recursively, of its children. */
  datatype MatcherTree = Node(kind: Kind, handlers: HandlerTable, help: seq<HelpMessage>, children: seq<MatcherTree>)

  /** What `match` does on `m` in the matcher `t`: its own matches in table
      order, then each child's, in composition order, with the invocations
      they trigger. */
  function TreeMatch(t: MatcherTree, m: TransportModels.Message): (seq<MatchedToken>, seq<Invocation>)
    decreases t, |t.children| + 1
  {
    var own := OwnMatches(t.kind, t.handlers, t.handlers.order, m);
    var kids := ForestMatch(t, |t.children|, m);
    (own.0 + kids.0, own.1 + kids.1)
  }

  /** The matches and invocations of the first `j` children of `t`. */
  function ForestMatch(t: MatcherTree, j: nat, m: TransportModels.Message): (seq<MatchedToken>, seq<Invocation>)
    requires j <= |t.children|
    decreases t, j
  {
    if j == 0 then ([], [])
    else
      var prev := ForestMatch(t, j - 1, m);
      var child := TreeMatch(t.children[j - 1], m);
      (prev.0 + child.0, prev.1 + child.1)
  }

  /** Every matcher of the tree is a plain one. */
  ghost predicate AllBase(t: MatcherTree)
    decreases t
  {
    t.kind == Base && forall k :: 0 <= k < |t.children| ==> AllBase(t.children[k])
  }

  /** A tree of plain matchers matches nothing and invokes nothing, whatever
      its tables hold. */
  lemma {:induction false} AllBaseMatchesNothing(t: MatcherTree, m: TransportModels.Message)
    requires AllBase(t)
    ensures TreeMatch(t, m) == ([], [])
    decreases t, |t.children| + 1
  {
    BaseOwnMatchesNothing(t.handlers, t.handlers.order, m);
    AllBaseForestNothing(t, |t.children|, m);
    var own := OwnMatches(t.kind, t.handlers, t.handlers.order, m);
    var kids := ForestMatch(t, |t.children|, m);
    assert own == ([], []) && kids == ([], []);
    assert TreeMatch(t, m) == (own.0 + kids.0, own.1 + kids.1);
    assert own.0 + kids.0 == [];
  }

  /** The first `j` children of a tree of plain matchers match nothing. */
  lemma {:induction false} AllBaseForestNothing(t: MatcherTree, j: nat, m: TransportModels.Message)
    requires AllBase(t) && j <= |t.children|
    ensures ForestMatch(t, j, m) == ([], [])
    decreases t, j
  {
    if j > 0 {
      AllBaseForestNothing(t, j - 1, m);
      AllBaseMatchesNothing(t.children[j - 1], m);
    }
  }

  /** The help entries of `t` and, after them, those of every child in
      order, recursively. */
  function TreeHelp(t: MatcherTree): seq<HelpMessage>
    decreases t, |t.children| + 1
  {
    t.help + ForestHelp(t, |t.children|)
  }

  /** The aggregated help entries of the first `j` children of `t`. */
  function ForestHelp(t: MatcherTree, j: nat): seq<HelpMessage>
    requires j <= |t.children|
    decreases t, j
  {
    if j == 0 then [] else ForestHelp(t, j - 1) + TreeHelp(t.children[j - 1])
  }

  /** `t` after `make_help_message`: every matcher holds its own aggregate. */
  function Aggregate(t: MatcherTree): (r: MatcherTree)
    decreases t, |t.children| + 1
  {
    Node(t.kind, t.handlers, TreeHelp(t), AggregateForest(t, |t.children|))
  }

  /** The first `j` children of `t`, each aggregated. */
  function AggregateForest(t: MatcherTree, j: nat): (r: seq<MatcherTree>)
    requires j <= |t.children|
    ensures |r| == j
    decreases t, j
  {
    if j == 0 then [] else AggregateForest(t, j - 1) + [Aggregate(t.children[j - 1])]
  }

  /** One child more: aggregating child `j` in place extends the aggregated
      prefix by one, and its help entries extend the collected ones. */
  lemma HelpStep(t: MatcherTree, agg: seq<MatcherTree>, j: nat, trees: seq<MatcherTree>,
                 before: seq<HelpMessage>, sub: seq<HelpMessage>)
    requires j < |t.children| == |agg| && agg == AggregateForest(t, |t.children|)
    requires trees == agg[..j] + t.children[j..]
    requires before == t.help + ForestHelp(t, j)
    requires sub == TreeHelp(trees[j])
    ensures before + sub == t.help + ForestHelp(t, j + 1)
    ensures trees[j := Aggregate(trees[j])] == agg[..j + 1] + t.children[j + 1..]
  {
    assert trees[j] == t.children[j];
    AggregateForestAt(t, |t.children|, j);
    assert ForestHelp(t, j + 1) == ForestHelp(t, j) + sub;
    assert trees[j := agg[j]] == agg[..j + 1] + t.children[j + 1..];
  }

  /** The `k`-th aggregated child is the aggregate of the `k`-th child. */
  lemma {:induction false} AggregateForestAt(t: MatcherTree, j: nat, k: nat)
    requires k < j <= |t.children|
    ensures AggregateForest(t, j)[k] == Aggregate(t.children[k])
    decreases j
  {
    if k < j - 1 {
      AggregateForestAt(t, j - 1, k);
    }
  }

  class Matcher {
    const kind: Kind
    var handlers: HandlerTable
    var matchers: seq<Matcher>
    var helpMessages: seq<HelpMessage>
    ghost var Repr: set<object>

    /** The object invariant: the table is well formed and the children form
        an acyclic structure inside `Repr`. */
    ghost predicate Valid()
      reads this, Repr
      decreases Repr
    {
      && this in Repr
      && TableInv(handlers)
      && (forall i :: 0 <= i < |matchers| ==>
            matchers[i] in Repr && matchers[i].Repr <= Repr && this !in matchers[i].Repr)
      && (forall i :: 0 <= i < |matchers| ==> matchers[i].Valid())
    }

    /** No object is shared between two children, at any depth. */
    ghost predicate TreeShaped()
      reads this, Repr
      requires Valid()
      decreases Repr
    {
      && (forall i, j :: 0 <= i < j < |matchers| ==> matchers[i].Repr !! matchers[j].Repr)
      && (forall i :: 0 <= i < |matchers| ==> matchers[i].TreeShaped())
    }

    /** `MatcherBase.__init__`: an empty table, no children, no help entries. */
    constructor (kind: Kind)
      ensures Valid() && TreeShaped() && fresh(Repr) && Repr == {this}
      ensures this.kind == kind && handlers == HandlerTable(map[], []) && matchers == [] && helpMessages == []
    {
      this.kind := kind;
      handlers := HandlerTable(map[], []);
      matchers := [];
      helpMessages := [];
      Repr := {this};
    }

    /** `add_handler`. The raw tokens are processed in order; each is stripped
        when it is a string, cast, and `handler` appended under each token it
        yields. A failing cast stops the registration there: what was
        appended before stays, and no help entry is added. Otherwise one help
        entry with the tokens as passed is added when `includeInHelp`. */
    method AddHandler(tokens: Tokens, handler: Handler, helpMessage: Option<string>, includeInHelp: bool)
      returns (failure: Option<string>)
      requires Valid()
      modifies this
      ensures Valid()
      ensures failure == PrepareAll(kind, AsTuple(tokens)).1
      ensures handlers == AppendAll(old(handlers), PrepareAll(kind, AsTuple(tokens)).0, handler)
      ensures helpMessages == if failure.None? && includeInHelp
                              then old(helpMessages) + [HelpMessage(AsTuple(tokens), helpMessage)]
                              else old(helpMessages)
      ensures matchers == old(matchers) && Repr == old(Repr)
    {
      var raws := AsTuple(tokens);
      failure := RegisterAll(raws, handler);
      if failure.None? && includeInHelp {
        helpMessages := helpMessages + [HelpMessage(raws, helpMessage)];
      }
      StaysValid();
    }

    /** The outer loop of `add_handler`: each raw token in turn is stripped
        when it is a string and cast, and `handler` is appended under what it
        yields; the first failing cast stops the loop. */
    method RegisterAll(raws: seq<Token>, handler: Handler) returns (failure: Option<string>)
      requires TableInv(handlers)
      modifies this
      ensures TableInv(handlers)
      ensures failure == PrepareAll(kind, raws).1
      ensures handlers == AppendAll(old(handlers), PrepareAll(kind, raws).0, handler)
      ensures matchers == old(matchers) && Repr == old(Repr) && helpMessages == old(helpMessages)
    {
      ghost var casts := Casts(kind, raws);
      var i := 0;
      while i < |raws|
        invariant 0 <= i <= |raws|
        invariant Registration(casts[..i]).1 == None
        invariant handlers == AppendAll(old(handlers), Registration(casts[..i]).0, handler)
        invariant matchers == old(matchers) && Repr == old(Repr) && helpMessages == old(helpMessages)
      {
        var rawToken := raws[i];
        if rawToken.Str? {
          rawToken := Str(Strip(rawToken.s));
        }
        var prepared := CastToken(kind, rawToken);
        assert prepared == casts[i];
        RegistrationStep(casts, i);
        if prepared.Err? {
          AppendAllOrder(old(handlers), Registration(casts[..i]).0, handler, Str(""));
          failure := Some(prepared.error);
          return;
        }
        AppendUnder(prepared.value, handler);
        AppendAllConcat(old(handlers), Registration(casts[..i]).0, prepared.value, handler);
        i := i + 1;
      }
      assert casts[..i] == casts;
      AppendAllOrder(old(handlers), Registration(casts).0, handler, Str(""));
      failure := None;
    }

    /** Changing only this matcher's own table (keeping it well formed) and
        help entries keeps the invariant. */
    twostate lemma StaysValid()
      requires old(Valid())
      requires Repr == old(Repr) && matchers == old(matchers) && TableInv(handlers)
      requires unchanged(Repr - {this})
      ensures Valid()
    {
      forall k | 0 <= k < |matchers|
        ensures matchers[k].Valid()
      {
        assert old(matchers[k].Valid());
        assert matchers[k] in matchers[k].Repr;
      }
    }

    /** The inner loop of `add_handler`: `handler` is appended under each of
        `toks`, in order. */
    method AppendUnder(toks: seq<Token>, handler: Handler)
      modifies this
      ensures handlers == AppendAll(old(handlers), toks, handler)
      ensures matchers == old(matchers) && Repr == old(Repr) && helpMessages == old(helpMessages)
    {
      var j := 0;
      while j < |toks|
        invariant 0 <= j <= |toks|
        invariant handlers == AppendAll(old(handlers), toks[..j], handler)
        invariant matchers == old(matchers) && Repr == old(Repr) && helpMessages == old(helpMessages)
      {
        assert toks[..j + 1][..j] == toks[..j];
        handlers := Append(handlers, toks[j], handler);
        j := j + 1;
      }
      assert toks[..j] == toks;
    }

    /** `matcher(*tokens, help_message=...)(handler)`: the decorator form of
        `add_handler`, with the tokens as a tuple and the entry included in help. */
    method Decorate(tokens: seq<Token>, helpMessage: Option<string>, handler: Handler) returns (failure: Option<string>)
      requires Valid()
      modifies this
      ensures Valid()
      ensures failure == PrepareAll(kind, tokens).1
      ensures handlers == AppendAll(old(handlers), PrepareAll(kind, tokens).0, handler)
      ensures helpMessages == if failure.None? then old(helpMessages) + [HelpMessage(tokens, helpMessage)]
                              else old(helpMessages)
      ensures matchers == old(matchers) && Repr == old(Repr)
    {
      failure := AddHandler(Many(tokens), handler, helpMessage, true);
    }

    /** The objects of a sequence of matchers. */
    static ghost function ReprOf(ms: seq<Matcher>): (r: set<object>)
      reads ms
      ensures forall k :: 0 <= k < |ms| ==> ms[k].Repr <= r
    {
      if ms == [] then {} else ms[0].Repr + ReprOf(ms[1..])
    }

    /** `add_matcher(*matchers)`: the matchers are appended to the children,
        in the order given. None of them may contain this matcher. */
    method AddMatchers(ms: seq<Matcher>)
      requires Valid()
      requires forall k :: 0 <= k < |ms| ==> ms[k].Valid() && this !in ms[k].Repr
      modifies this
      ensures Valid()
      ensures matchers == old(matchers) + ms
      ensures handlers == old(handlers) && helpMessages == old(helpMessages)
      ensures Repr == old(Repr) + ReprOf(ms)
    {
      matchers := matchers + ms;
      Repr := Repr + ReprOf(ms);
      forall i | 0 <= i < |matchers|
        ensures matchers[i] in Repr && matchers[i].Repr <= Repr && this !in matchers[i].Repr && matchers[i].Valid()
      {
        if i >= |old(matchers)| {
          assert matchers[i] == ms[i - |old(matchers)|];
        }
      }
    }

    /** `call`: invokes the handlers of `token`, in order (none when it has none). */
    method Call(token: Token, message: Option<TransportModels.Message>, kwargs: map<string, Value>)
      returns (calls: seq<Invocation>)
      ensures calls == CallSpec(handlers, token, message, kwargs)
    {
      var offered := Offered(token, message, kwargs);
      var hs := Lookup(handlers, token);
      calls := [];
      if hs == [] {
        return;
      }
      var i := 0;
      while i < |hs|
        invariant 0 <= i <= |hs|
        invariant calls == Invocations(hs[..i], offered)
      {
        assert hs[..i + 1][..i] == hs[..i];
        var handler := hs[i];
        calls := calls + [Invocation(handler, Bind(offered, handler.params))];
        i := i + 1;
      }
      assert hs[..i] == hs;
    }

    /** The snapshot of this matcher and its children. */
    ghost function Tree(): MatcherTree
      reads this, Repr
      requires Valid()
      decreases Repr, |matchers| + 1
    {
      Node(kind, handlers, helpMessages, ChildTrees(|matchers|))
    }

    /** The snapshots of the first `j` children. */
    ghost function ChildTrees(j: nat): (ts: seq<MatcherTree>)
      reads this, Repr
      requires Valid() && j <= |matchers|
      ensures |ts| == j
      decreases Repr, j
    {
      if j == 0 then [] else ChildTrees(j - 1) + [matchers[j - 1].Tree()]
    }

    /** The snapshot of child `k` is among those of the first `j` children. */
    lemma {:induction false} ChildTreesAt(j: nat, k: nat)
      requires Valid() && k < j <= |matchers|
      ensures ChildTrees(j)[k] == matchers[k].Tree()
      decreases j
    {
      if k < j - 1 {
        ChildTreesAt(j - 1, k);
      }
    }

    /** The first loop of `match`: checks every token of the table in order,
        calling the handlers of each match as it is found. */
    method MatchOwn(m: TransportModels.Message) returns (matched: seq<MatchedToken>, calls: seq<Invocation>)
      ensures (matched, calls) == OwnMatches(kind, handlers, handlers.order, m)
    {
      matched, calls := [], [];
      var i := 0;
      while i < |handlers.order|
        invariant 0 <= i <= |handlers.order|
        invariant (matched, calls) == OwnMatches(kind, handlers, handlers.order[..i], m)
      {
        assert handlers.order[..i + 1][..i] == handlers.order[..i];
        var found := Check(kind, handlers.order[i], m);
        if found.Some? {
          matched := matched + [found.value];
          var invoked := Call(found.value.token, Some(m), MatchKwargs(found.value));
          calls := calls + invoked;
        }
        i := i + 1;
      }
      assert handlers.order[..i] == handlers.order;
    }

    /** `match`: its own matches first, then every child's, in order. */
    method Match(m: TransportModels.Message) returns (matched: seq<MatchedToken>, calls: seq<Invocation>)
      requires Valid()
      ensures (matched, calls) == TreeMatch(Tree(), m)
      decreases Repr, 1
    {
      var ownMatched, ownCalls := MatchOwn(m);
      var kidsMatched, kidsCalls := MatchChildren(m);
      matched, calls := ownMatched + kidsMatched, ownCalls + kidsCalls;
    }

    /** The second loop of `match`: every child matches in turn. */
    method MatchChildren(m: TransportModels.Message) returns (matched: seq<MatchedToken>, calls: seq<Invocation>)
      requires Valid()
      ensures (matched, calls) == ForestMatch(Tree(), |matchers|, m)
      decreases Repr, 0
    {
      ghost var t := Tree();
      matched, calls := [], [];
      var j := 0;
      while j < |matchers|
        invariant 0 <= j <= |matchers|
        invariant (matched, calls) == ForestMatch(t, j, m)
      {
        var child := matchers[j];
        assert child.Valid() && child.Repr < Repr;
        var childMatched, childCalls := child.Match(m);
        ChildTreesAt(|matchers|, j);
        matched := matched + childMatched;
        calls := calls + childCalls;
        j := j + 1;
      }
    }

    /** `make_help_message`. It extends this matcher's own list in place with
        each child's aggregated list, which every child has extended in the
        same way, and returns that list: the result is the aggregate of the
        state before the call, and every matcher of the tree now holds its
        own aggregate. */
    method MakeHelpMessage() returns (messages: seq<HelpMessage>)
      requires Valid() && TreeShaped()
      modifies Repr
      decreases Repr, 2
      ensures Valid() && TreeShaped() && Repr == old(Repr)
      ensures messages == TreeHelp(old(Tree()))
      ensures Tree() == Aggregate(old(Tree()))
    {
      ghost var t := Tree();
      ghost var agg := AggregateForest(t, |matchers|);
      HelpStart(t);
      var j := 0;
      while j < |matchers|
        invariant HelpProgress(t, agg, j)
        invariant Repr == old(Repr) && matchers == old(matchers)
      {
        AbsorbChild(t, agg, j);
        j := j + 1;
      }
      messages := helpMessages;
      HelpDone(t, agg);
    }

    /** Before the loop of `make_help_message` no child has aggregated yet. */
    lemma HelpStart(t: MatcherTree)
      requires Valid() && TreeShaped() && t == Tree()
      ensures HelpProgress(t, AggregateForest(t, |matchers|), 0)
    {
      Unfolded();
      assert AggregateForest(t, |matchers|)[..0] + t.children[0..] == t.children;
      assert helpMessages == t.help + ForestHelp(t, 0);
    }

    /** `Valid` and `TreeShaped` give `Children`. */
    lemma Unfolded()
      requires Valid() && TreeShaped()
      ensures Children()
    {
    }

    /** After the loop every child has aggregated: the matcher is the
        aggregate of its old tree, and its list is that tree's help. */
    lemma HelpDone(t: MatcherTree, agg: seq<MatcherTree>)
      requires HelpProgress(t, agg, |matchers|)
      ensures Valid() && TreeShaped()
      ensures helpMessages == TreeHelp(t) && Tree() == Aggregate(t)
    {
      assert agg[..|matchers|] + t.children[|matchers|..] == agg;
      Regrown();
    }

    /** The state of `make_help_message` after `j` children: the children
        are still well formed and apart, the first `j` hold their aggregates
        (`agg`), the others are as they were, and this matcher's list holds
        its old entries and the first `j` children's aggregates. */
    ghost predicate HelpProgress(t: MatcherTree, agg: seq<MatcherTree>, j: nat)
      reads this, Repr
    {
      && Children()
      && j <= |matchers| == |t.children| == |agg|
      && kind == t.kind && handlers == t.handlers
      && agg == AggregateForest(t, |t.children|)
      && ChildTrees(|matchers|) == agg[..j] + t.children[j..]
      && helpMessages == t.help + ForestHelp(t, j)
    }

    /** `Valid` and `TreeShaped`, unfolded one level. */
    ghost predicate Children()
      reads this, Repr
    {
      && this in Repr && TableInv(handlers)
      && (forall k :: 0 <= k < |matchers| ==>
            matchers[k] in Repr && matchers[k].Repr <= Repr && this !in matchers[k].Repr)
      && (forall i, i' :: 0 <= i < i' < |matchers| ==> matchers[i].Repr !! matchers[i'].Repr)
      && (forall k :: 0 <= k < |matchers| ==> matchers[k].Valid() && matchers[k].TreeShaped())
    }

    /** One turn of the loop of `make_help_message`: child `j` aggregates
        and its list is appended to this matcher's own. */
    method AbsorbChild(ghost t: MatcherTree, ghost agg: seq<MatcherTree>, j: nat)
      requires HelpProgress(t, agg, j) && j < |matchers|
      modifies Repr
      decreases Repr, 1
      ensures HelpProgress(t, agg, j + 1)
      ensures Repr == old(Repr) && matchers == old(matchers)
    {
      ghost var trees := ChildTrees(|matchers|);
      ghost var before := helpMessages;
      var sub := RunChild(j);
      AppendHelp(sub);
      ProgressStep(t, agg, j, trees, before, sub);
    }

    /** The bookkeeping of one turn of `make_help_message`. */
    lemma ProgressStep(t: MatcherTree, agg: seq<MatcherTree>, j: nat, trees: seq<MatcherTree>,
                       before: seq<HelpMessage>, sub: seq<HelpMessage>)
      requires Children() && j < |matchers| == |t.children| == |agg|
      requires kind == t.kind && handlers == t.handlers && agg == AggregateForest(t, |t.children|)
      requires trees == agg[..j] + t.children[j..]
      requires before == t.help + ForestHelp(t, j)
      requires sub == TreeHelp(trees[j])
      requires ChildTrees(|matchers|) == trees[j := Aggregate(trees[j])]
      requires helpMessages == before + sub
      ensures HelpProgress(t, agg, j + 1)
    {
      HelpStep(t, agg, j, trees, before, sub);
    }

    /** Child `j` aggregates; no other child changes. */
    method RunChild(j: nat) returns (sub: seq<HelpMessage>)
      requires Children() && j < |matchers|
      modifies Repr
      decreases Repr, 0
      ensures Children() && unchanged(this)
      ensures sub == TreeHelp(old(ChildTrees(|matchers|))[j])
      ensures ChildTrees(|matchers|) == old(ChildTrees(|matchers|))[j := Aggregate(old(ChildTrees(|matchers|))[j])]
    {
      ghost var trees := ChildTrees(|matchers|);
      ChildTreesAll();
      var child := matchers[j];
      sub := child.MakeHelpMessage();
      SiblingsFramed(j);
      ChildTreesUpdate(trees, j, Aggregate(trees[j]));
    }

    /** After child `j` alone changed, the others are as they were and the
        children are still well formed and apart. */
    twostate lemma SiblingsFramed(j: nat)
      requires old(Children()) && j < old(|matchers|) && unchanged(this)
      requires unchanged(old(Repr) - old(matchers[j].Repr))
      requires matchers[j].Valid() && matchers[j].TreeShaped() && matchers[j].Repr == old(matchers[j].Repr)
      ensures Children()
      ensures forall k :: 0 <= k < |matchers| && k != j ==> matchers[k].Tree() == old(matchers[k].Tree())
    {
      forall k | 0 <= k < |matchers| && k != j
        ensures matchers[k].Repr == old(matchers[k].Repr) && matchers[k].Valid() && matchers[k].TreeShaped()
        ensures matchers[k].Tree() == old(matchers[k].Tree())
      {
        Framed(matchers[k]);
      }
    }

    /** The snapshots of the children, when all but child `j` are `trees`
        and child `j`'s is `x`. */
    lemma ChildTreesUpdate(trees: seq<MatcherTree>, j: nat, x: MatcherTree)
      requires Valid() && j < |matchers| == |trees|
      requires forall k :: 0 <= k < |matchers| && k != j ==> matchers[k].Tree() == trees[k]
      requires matchers[j].Tree() == x
      ensures ChildTrees(|matchers|) == trees[j := x]
    {
      ChildTreesAll();
    }

    /** `messages += ...` on this matcher's own list, which no child can see. */
    method AppendHelp(sub: seq<HelpMessage>)
      requires Children()
      modifies this
      ensures helpMessages == old(helpMessages) + sub
      ensures handlers == old(handlers) && matchers == old(matchers) && Repr == old(Repr)
      ensures Children() && ChildTrees(|matchers|) == old(ChildTrees(|matchers|))
    {
      ghost var trees := ChildTrees(|matchers|);
      ChildTreesAll();
      helpMessages := helpMessages + sub;
      forall k | 0 <= k < |matchers|
        ensures matchers[k].Repr == old(matchers[k].Repr) && matchers[k].Valid() && matchers[k].TreeShaped()
        ensures matchers[k].Tree() == old(matchers[k].Tree())
      {
        Framed(matchers[k]);
      }
      ChildTreesAll();
    }

    /** The snapshots of all children, one by one. */
    lemma ChildTreesAll()
      requires Valid()
      ensures forall k :: 0 <= k < |matchers| ==> ChildTrees(|matchers|)[k] == matchers[k].Tree()
    {
      forall k | 0 <= k < |matchers|
        ensures ChildTrees(|matchers|)[k] == matchers[k].Tree()
      {
        ChildTreesAt(|matchers|, k);
      }
    }

    /** A matcher none of whose objects changed keeps its invariant, its
        shape and its snapshot. */
    static twostate lemma Framed(c: Matcher)
      requires old(c.Valid()) && old(c.TreeShaped())
      requires unchanged(old(c.Repr))
      ensures c.Repr == old(c.Repr) && c.Valid() && c.TreeShaped() && c.Tree() == old(c.Tree())
    {
    }

    /** The unfolded invariant is the invariant. */
    lemma Regrown()
      requires Children()
      ensures Valid() && TreeShaped()
    {
    }
  }
}
