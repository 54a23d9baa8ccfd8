/** The `Chatushka` runtime: it collects matchers and, cycle after cycle,
    polls the transport for updates and hands every update to every matcher.
    The matchers themselves are library objects whose behaviour is not part
    of this model: the runtime only records how it builds and configures
    them and, for each poll, the (update, matcher) dispatches it fans out. */
module Chatushka {
  import opened Wrappers
  import opened TransportModels

  /** `cmd_prefixes` as it may be passed: one string, or a sequence of strings. */
  datatype PrefixesArg = OnePrefix(prefix: string) | PrefixSeq(prefixes: seq<string>)

  /** The prefix list the runtime keeps: a single string becomes a
      one-element list, a sequence is kept as given. */
  function NormalisePrefixes(p: PrefixesArg): seq<string>
  {
    match p
    case OnePrefix(prefix) => [prefix]
    case PrefixSeq(prefixes) => prefixes
  }

  /** A callable a matcher runs, identified by a number. */
  type Action = nat

  /** A member of the runtime's own event enumeration, identified by a number. */
  type EventId = nat

  /** A matcher, as the arguments it was built with. A command matcher also
      records, in order, every prefix list it was given by
      `add_commands_prefixes`. A chance rate is a probability in `real`. */
  datatype BotMatcher =
    | CommandMatcher(commands: seq<string>, action: Action, caseSensitive: bool, chanceRate: real,
                     addedPrefixes: seq<seq<string>>)
    | RegExMatcher(patterns: seq<string>, action: Action, chanceRate: real)
    | EventMatcher(event: EventId, action: Action, chanceRate: real)

  /** A matcher as `add_matcher` stores it: a command matcher first receives
      the runtime's prefixes; any other matcher is stored as it is. */
  function WithPrefixes(m: BotMatcher, prefixes: seq<string>): BotMatcher
  {
    if m.CommandMatcher? then m.(addedPrefixes := m.addedPrefixes + [prefixes]) else m
  }

  /** The decorator forms `cmd`, `regex` and `event`: the arguments they
      capture, waiting for the decorated function. */
  datatype Decorator =
    | Cmd(commands: seq<string>, caseSensitive: bool := false, chanceRate: real := 1.0)
    | Regex(patterns: seq<string>, chanceRate: real := 1.0)
    | Event(event: EventId, chanceRate: real := 1.0)

  /** What one transport poll returns: the updates and the next offset. */
  datatype Poll = Poll(updates: seq<Update>, offset: Option<int>)

  /** One call of a matcher on an update. */
  datatype Dispatch = Dispatch(update: Update, matcher: BotMatcher)

  /** The dispatches of one batch, update by update and, for each update,
      matcher by matcher. */
  function DispatchPlan(updates: seq<Update>, ms: seq<BotMatcher>): (plan: seq<Dispatch>)
    ensures |plan| == |updates| * |ms|
  {
    if updates == [] then []
    else
      var n := |updates| - 1;
      var init := DispatchPlan(updates[..n], ms);
      assert |init| + |ms| == (n + 1) * |ms|;
      init + seq(|ms|, j requires 0 <= j < |ms| => Dispatch(updates[n], ms[j]))
  }

  /** The dispatches are in update-major order: matcher `j` on update `i`
      comes at position `i * |ms| + j`, so each pair occurs. */
  lemma {:induction false} DispatchPlanOrder(updates: seq<Update>, ms: seq<BotMatcher>, i: nat, j: nat)
    requires i < |updates| && j < |ms|
    ensures i * |ms| + j < |DispatchPlan(updates, ms)|
    ensures DispatchPlan(updates, ms)[i * |ms| + j] == Dispatch(updates[i], ms[j])
  {
    var n := |updates| - 1;
    var init := DispatchPlan(updates[..n], ms);
    assert |init| == n * |ms|;
    if i < n {
      DispatchPlanOrder(updates[..n], ms, i, j);
      assert updates[..n][i] == updates[i];
    } else {
      assert i * |ms| + j == |init| + j;
    }
  }

  /** How one cycle of `_loop` ends: with the offset for the next poll, with
      the exception the poll raised, or with an exception raised by one of
      the dispatches (which one reaches `gather` first depends on scheduling,
      so the model does not say). */
  datatype CycleEnd = Continue(offset: Option<int>) | PollRaised(error: string) | MatcherRaised

  /** Some dispatch of a batch of `n` updates over `m` matchers raises;
      `fails` holds the (update, matcher) positions whose call raises. */
  predicate SomeRaises(n: nat, m: nat, fails: set<(nat, nat)>)
  {
    exists i: nat, j: nat :: i < n && j < m && (i, j) in fails
  }

  /** One cycle of `_check_updates` on the poll's result: a raising poll
      dispatches nothing; an empty batch dispatches nothing and goes on;
      otherwise every dispatch of the batch is started, and the cycle goes
      on only when none of them raises. */
  function CycleSpec(poll: Result<Poll, string>, ms: seq<BotMatcher>, fails: set<(nat, nat)>): (seq<Dispatch>, CycleEnd)
  {
    if poll.Err? then ([], PollRaised(poll.error))
    else if poll.value.updates == [] then ([], Continue(poll.value.offset))
    else
      (DispatchPlan(poll.value.updates, ms),
       if SomeRaises(|poll.value.updates|, |ms|, fails) then MatcherRaised else Continue(poll.value.offset))
  }

  /** A cycle goes on exactly when the poll succeeds and either returns no
      updates or none of its dispatches raises, and then with the offset the
      poll returned. A successful poll starts all its dispatches, even when
      one of them raises; a raising poll starts none. */
  lemma CycleOutcome(poll: Result<Poll, string>, ms: seq<BotMatcher>, fails: set<(nat, nat)>)
    ensures var (dispatched, end) := CycleSpec(poll, ms, fails);
            && (end.Continue? <==> poll.Ok? && (poll.value.updates == [] || !SomeRaises(|poll.value.updates|, |ms|, fails)))
            && (end.Continue? ==> end.offset == poll.value.offset)
            && (end.PollRaised? <==> poll.Err?)
            && (poll.Err? ==> dispatched == [] && end.error == poll.error)
            && (poll.Ok? ==> |dispatched| == |poll.value.updates| * |ms|)
            && (end == MatcherRaised ==> exists i: nat, j: nat :: i < |poll.value.updates| && j < |ms| && (i, j) in fails)
  {
  }

  /** The first `c` cycles of `_loop`: the offset each polled from, the
      dispatches each started, and how the last one ended. The loop stops
      after the first cycle that raises. `getUpdates(c, o)` is what the
      transport returns in cycle `c` when asked from offset `o`, and
      `fails(c)` the raising dispatches of cycle `c`. */
  function LoopRun(getUpdates: (nat, Option<int>) -> Result<Poll, string>, ms: seq<BotMatcher>,
                   fails: nat -> set<(nat, nat)>, c: nat)
    : (r: (seq<Option<int>>, seq<seq<Dispatch>>, CycleEnd))
    ensures |r.1| == |r.0| <= c
    ensures |r.0| < c ==> !r.2.Continue?
    ensures c == 0 ==> r.2 == Continue(None)
  {
    if c == 0 then ([], [], Continue(None))
    else
      var (sent, batches, end) := LoopRun(getUpdates, ms, fails, c - 1);
      if !end.Continue? then (sent, batches, end)
      else
        var (d, next) := CycleSpec(getUpdates(c - 1, end.offset), ms, fails(c - 1));
        (sent + [end.offset], batches + [d], next)
  }

  /** Cycle `k` of a run polls from the offset the previous cycle ended
      with (none for the first), starts the dispatches `CycleSpec` gives, and
      ends as the run's next cycle begins or, for the last cycle, as the run
      ends. */
  lemma {:induction false} LoopThreading(getUpdates: (nat, Option<int>) -> Result<Poll, string>, ms: seq<BotMatcher>,
                                         fails: nat -> set<(nat, nat)>, c: nat, k: nat)
    requires k < |LoopRun(getUpdates, ms, fails, c).0|
    ensures var (sent, batches, end) := LoopRun(getUpdates, ms, fails, c);
            var cycle := CycleSpec(getUpdates(k, sent[k]), ms, fails(k));
            && (k == 0 ==> sent[k] == None)
            && batches[k] == cycle.0
            && (k + 1 < |sent| ==> cycle.1 == Continue(sent[k + 1]))
            && (k + 1 == |sent| ==> end == cycle.1)
  {
    var prev := LoopRun(getUpdates, ms, fails, c - 1);
    if prev.2.Continue? {
      if k < |prev.0| {
        LoopThreading(getUpdates, ms, fails, c - 1, k);
      } else if c > 1 {
        assert |prev.0| == c - 1;
      }
    } else {
      LoopThreading(getUpdates, ms, fails, c - 1, k);
    }
  }

  /** A run that has raised stays as it is: a larger bound adds no cycle. */
  lemma {:induction false} LoopStops(getUpdates: (nat, Option<int>) -> Result<Poll, string>, ms: seq<BotMatcher>,
                                     fails: nat -> set<(nat, nat)>, c: nat, d: nat)
    requires c <= d && !LoopRun(getUpdates, ms, fails, c).2.Continue?
    ensures LoopRun(getUpdates, ms, fails, d) == LoopRun(getUpdates, ms, fails, c)
  {
    if c < d {
      LoopStops(getUpdates, ms, fails, c, d - 1);
    }
  }

  /** When the first cycle raises (the poll, or any dispatch of its batch),
      that cycle, with all its dispatches started, is the whole run, however
      many cycles were allowed. */
  lemma FirstCycleRaises(getUpdates: (nat, Option<int>) -> Result<Poll, string>, ms: seq<BotMatcher>,
                         fails: nat -> set<(nat, nat)>, c: nat)
    requires c >= 1 && !CycleSpec(getUpdates(0, None), ms, fails(0)).1.Continue?
    ensures var cycle := CycleSpec(getUpdates(0, None), ms, fails(0));
            LoopRun(getUpdates, ms, fails, c) == ([None], [cycle.0], cycle.1)
  {
    var cycle := CycleSpec(getUpdates(0, None), ms, fails(0));
    var none: seq<Option<int>> := [];
    var noBatches: seq<seq<Dispatch>> := [];
    assert LoopRun(getUpdates, ms, fails, 1) == (none + [None], noBatches + [cycle.0], cycle.1);
    assert none + [None] == [None] && noBatches + [cycle.0] == [cycle.0];
    LoopStops(getUpdates, ms, fails, 1, c);
  }

  /** `Chatushka`: the bot runtime. */
  class Chatushka {
    const token: string
    const cmdPrefixes: seq<string>
    var state: map<string, int>
    var matchers: seq<BotMatcher>

    /** `__init__`: no matchers and an empty state. */
    constructor (token: string, cmdPrefixes: PrefixesArg := PrefixSeq([]))
      ensures this.token == token && this.cmdPrefixes == NormalisePrefixes(cmdPrefixes)
      ensures matchers == [] && state == map[]
    {
      this.token := token;
      this.cmdPrefixes := NormalisePrefixes(cmdPrefixes);
      state := map[];
      matchers := [];
    }

    /** `add_matcher`: the matcher goes last; a command matcher first gets
        the runtime's prefixes. */
    method AddMatcher(m: BotMatcher)
      modifies this
      ensures matchers == old(matchers) + [WithPrefixes(m, cmdPrefixes)]
      ensures state == old(state)
    {
      var stored := m;
      if m.CommandMatcher? {
        stored := m.(addedPrefixes := m.addedPrefixes + [cmdPrefixes]);
      }
      matchers := matchers + [stored];
    }

    /** `add_cmd`: adds one command matcher, which gets the prefixes. */
    method AddCmd(commands: seq<string>, action: Action, caseSensitive: bool := false, chanceRate: real := 1.0)
      modifies this
      ensures matchers == old(matchers) + [CommandMatcher(commands, action, caseSensitive, chanceRate, [cmdPrefixes])]
      ensures state == old(state)
    {
      AddMatcher(CommandMatcher(commands, action, caseSensitive, chanceRate, []));
      assert [] + [cmdPrefixes] == [cmdPrefixes];
    }

    /** `add_regex`: adds one regular-expression matcher. */
    method AddRegex(patterns: seq<string>, action: Action, chanceRate: real := 1.0)
      modifies this
      ensures matchers == old(matchers) + [RegExMatcher(patterns, action, chanceRate)]
      ensures state == old(state)
    {
      AddMatcher(RegExMatcher(patterns, action, chanceRate));
    }

    /** `add_event`: adds one event matcher. */
    method AddEvent(event: EventId, action: Action, chanceRate: real := 1.0)
      modifies this
      ensures matchers == old(matchers) + [EventMatcher(event, action, chanceRate)]
      ensures state == old(state)
    {
      AddMatcher(EventMatcher(event, action, chanceRate));
    }

    /** Applying a decorator made by `cmd`, `regex` or `event` to `func`:
        the corresponding `add_*` with the captured arguments. */
    method Decorate(d: Decorator, func: Action)
      modifies this
      ensures d.Cmd? ==> matchers == old(matchers) + [CommandMatcher(d.commands, func, d.caseSensitive, d.chanceRate, [cmdPrefixes])]
      ensures d.Regex? ==> matchers == old(matchers) + [RegExMatcher(d.patterns, func, d.chanceRate)]
      ensures d.Event? ==> matchers == old(matchers) + [EventMatcher(d.event, func, d.chanceRate)]
      ensures state == old(state)
    {
      match d
      case Cmd(commands, caseSensitive, chanceRate) => AddCmd(commands, func, caseSensitive, chanceRate);
      case Regex(patterns, chanceRate) => AddRegex(patterns, func, chanceRate);
      case Event(event, chanceRate) => AddEvent(event, func, chanceRate);
    }

    /** `_check_updates` in cycle `cycle`: polls from `offset`; with no
        updates nothing is dispatched, otherwise every matcher gets every
        update, update-major, all started together. The transport's offset is
        returned unless the poll or a dispatch raised. */
    method CheckUpdates(getUpdates: (nat, Option<int>) -> Result<Poll, string>, fails: set<(nat, nat)>,
                        cycle: nat, offset: Option<int>)
      returns (dispatched: seq<Dispatch>, end: CycleEnd)
      ensures (dispatched, end) == CycleSpec(getUpdates(cycle, offset), matchers, fails)
    {
      var poll := getUpdates(cycle, offset);
      if poll.Err? {
        return [], PollRaised(poll.error);
      }
      var updates := poll.value.updates;
      if updates == [] {
        return [], Continue(poll.value.offset);
      }
      dispatched := DispatchPlan(updates, matchers);
      if SomeRaises(|updates|, |matchers|, fails) {
        end := MatcherRaised;
      } else {
        end := Continue(poll.value.offset);
      }
    }

    /** Up to `cycles` iterations of `_loop`: the offsets it polls from, the
        dispatches of each cycle and how the last cycle ended. No handler
        catches an exception, so the first raising cycle ends the loop. */
    method Loop(getUpdates: (nat, Option<int>) -> Result<Poll, string>, fails: nat -> set<(nat, nat)>, cycles: nat)
      returns (sent: seq<Option<int>>, batches: seq<seq<Dispatch>>, end: CycleEnd)
      ensures (sent, batches, end) == LoopRun(getUpdates, matchers, fails, cycles)
    {
      sent, batches, end := [], [], Continue(None);
      var c := 0;
      while c < cycles && end.Continue?
        invariant c <= cycles
        invariant (sent, batches, end) == LoopRun(getUpdates, matchers, fails, c)
      {
        var offset := end.offset;
        sent := sent + [offset];
        var dispatched, next := CheckUpdates(getUpdates, fails(c), c, offset);
        batches := batches + [dispatched];
        end := next;
        c := c + 1;
      }
      if c < cycles {
        LoopStops(getUpdates, matchers, fails, c, cycles);
      }
    }
  }
}
