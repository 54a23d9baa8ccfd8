/** The `WatchDogBot` runtime: an events matcher that polls the transport and
    hands the message of every update to each of its matchers in turn. What a
    matcher does with a message is not modelled here; each attempt either
    returns or raises, as given by the set of (update, matcher) positions
    that raise. */
module WatchDog {
  import opened Wrappers
  import opened CoreModels
  import opened TransportModels
  import opened Matchers
  import opened TelegramApi

  /** What one poll of the transport returns: the updates and the latest update id. */
  datatype Batch = Batch(updates: seq<Update>, latest: Option<int>)

  /** A call of matcher `matcher` on the message of update `update` of a batch. */
  datatype Attempt = Attempt(update: nat, matcher: nat, message: TransportModels.Message)

  /** Why an iteration of the loop raised. */
  datatype LoopError =
    | MatcherError(update: nat, matcher: nat)  // the matcher's own exception, re-raised in debug mode
    | LoggerAttributeError                     // outside debug mode: the logger has no method `erro`
    | LatestIdMissing                          // `None + 1`: a batch with updates but no latest id
    | PollError(name: string)                  // `get_updates` itself raised, outside the `try`

  /** How an iteration ends: the loop goes on from `offset`, or it raised. */
  datatype Outcome = Continue(offset: Option<int>) | Raised(error: LoopError)

  /** The first of the matchers `0 .. n - 1` that raises on update `i`. */
  function FirstFailure(fails: set<(nat, nat)>, i: nat, n: nat): (r: Option<nat>)
    ensures r.Some? ==> r.value < n && (i, r.value) in fails && forall j: nat :: j < r.value ==> (i, j) !in fails
    ensures r.None? ==> forall j: nat :: j < n ==> (i, j) !in fails
  {
    if n == 0 then None
    else
      var f := FirstFailure(fails, i, n - 1);
      if f.Some? then f else if (i, n - 1) in fails then Some(n - 1) else None
  }

  /** The attempts of the first `count` matchers on update `i`, in order. */
  function Row(i: nat, count: nat, message: TransportModels.Message): (a: seq<Attempt>)
    ensures |a| == count
    ensures forall j :: 0 <= j < count ==> a[j] == Attempt(i, j, message)
  {
    seq(count, j requires 0 <= j < count => Attempt(i, j, message))
  }

  /** The matchers tried on update `i` of a batch: all `n`, or up to and
      including the first that raises. */
  function TriedOn(u: Update, i: nat, n: nat, fails: set<(nat, nat)>): (a: seq<Attempt>)
    ensures |a| == match FirstFailure(fails, i, n) case None => n case Some(j) => j + 1
    ensures forall j :: 0 <= j < |a| ==> a[j] == Attempt(i, j, u.message)
  {
    Row(i, match FirstFailure(fails, i, n) case None => n case Some(j) => j + 1, u.message)
  }

  /** The updates are tried in order, each on the matchers in order, until an
      attempt raises: the attempts made and the (update, matcher) that raised. */
  function BatchRun(updates: seq<Update>, n: nat, fails: set<(nat, nat)>): (seq<Attempt>, Option<(nat, nat)>)
  {
    if updates == [] then ([], None)
    else
      var m: nat := |updates| - 1;
      var (a, f) := BatchRun(updates[..m], n, fails);
      if f.Some? then (a, f)
      else
        (a + TriedOn(updates[m], m, n, fails),
         match FirstFailure(fails, m, n) case None => None case Some(j) => Some((m, j)))
  }

  /** No matcher raises on any update. */
  ghost predicate NoFailures(count: nat, n: nat, fails: set<(nat, nat)>)
  {
    forall i: nat, j: nat :: i < count && j < n ==> (i, j) !in fails
  }

  /** A run stops at the first raising (update, matcher), in update-major
      order: no earlier update has one, and no earlier matcher on that update. */
  lemma {:induction false} BatchRunFailure(updates: seq<Update>, n: nat, fails: set<(nat, nat)>)
    ensures BatchRun(updates, n, fails).1.None? <==> NoFailures(|updates|, n, fails)
    ensures var f := BatchRun(updates, n, fails).1;
            f.Some? ==>
              && f.value.0 < |updates| && f.value.1 < n && f.value in fails
              && FirstFailure(fails, f.value.0, n) == Some(f.value.1)
              && NoFailures(f.value.0, n, fails)
  {
    if updates != [] {
      var m := |updates| - 1;
      BatchRunFailure(updates[..m], n, fails);
      var f := BatchRun(updates[..m], n, fails).1;
      if f.None? && FirstFailure(fails, m, n).None? {
        assert NoFailures(|updates|, n, fails) by {
          forall i: nat, j: nat | i < |updates| && j < n ensures (i, j) !in fails {
            if i < m { assert NoFailures(m, n, fails); }
          }
        }
      }
      if f.None? && FirstFailure(fails, m, n).Some? {
        assert (m, FirstFailure(fails, m, n).value) in fails;
      }
    }
  }

  /** The number of attempts: every matcher on every update when none
      raises; otherwise those up to and including the raising one. */
  lemma {:induction false} BatchRunLength(updates: seq<Update>, n: nat, fails: set<(nat, nat)>)
    ensures var (a, f) := BatchRun(updates, n, fails);
            |a| == if f.None? then |updates| * n else f.value.0 * n + f.value.1 + 1
  {
    if updates != [] {
      var m := |updates| - 1;
      BatchRunLength(updates[..m], n, fails);
      BatchRunFailure(updates[..m], n, fails);
      var (a, f) := BatchRun(updates[..m], n, fails);
      if f.None? {
        assert |a| == m * n;
        assert (m + 1) * n == m * n + n;
      }
    }
  }

  /** Attempt `(i, j)` is made, at position `i * n + j`, exactly for the
      positions up to the first raising one. */
  lemma {:induction false} BatchRunAttempt(updates: seq<Update>, n: nat, fails: set<(nat, nat)>, i: nat, j: nat)
    requires i < |updates| && j < n
    requires var f := BatchRun(updates, n, fails).1;
             f.None? || i < f.value.0 || (i == f.value.0 && j <= f.value.1)
    ensures i * n + j < |BatchRun(updates, n, fails).0|
    ensures BatchRun(updates, n, fails).0[i * n + j] == Attempt(i, j, updates[i].message)
    decreases |updates|, 1
  {
    if i < |updates| - 1 {
      AttemptBeforeLast(updates, n, fails, i, j);
    } else {
      AttemptOnLast(updates, n, fails, j);
    }
  }

  /** An attempt on an update before the last is made as in the run without the last update. */
  lemma {:induction false} AttemptBeforeLast(updates: seq<Update>, n: nat, fails: set<(nat, nat)>, i: nat, j: nat)
    requires i < |updates| - 1 && j < n
    requires var f := BatchRun(updates, n, fails).1;
             f.None? || i < f.value.0 || (i == f.value.0 && j <= f.value.1)
    ensures i * n + j < |BatchRun(updates, n, fails).0|
    ensures BatchRun(updates, n, fails).0[i * n + j] == Attempt(i, j, updates[i].message)
    decreases |updates|, 0
  {
    var m := |updates| - 1;
    BatchRunAttempt(updates[..m], n, fails, i, j);
    assert updates[..m][i] == updates[i];
  }

  /** An attempt on the last update comes after every attempt on the earlier ones. */
  lemma {:induction false} AttemptOnLast(updates: seq<Update>, n: nat, fails: set<(nat, nat)>, j: nat)
    requires |updates| > 0 && j < n
    requires var f := BatchRun(updates, n, fails).1;
             f.None? || |updates| - 1 < f.value.0 || (|updates| - 1 == f.value.0 && j <= f.value.1)
    ensures (|updates| - 1) * n + j < |BatchRun(updates, n, fails).0|
    ensures BatchRun(updates, n, fails).0[(|updates| - 1) * n + j] == Attempt(|updates| - 1, j, updates[|updates| - 1].message)
  {
    var m := |updates| - 1;
    BatchRunFailure(updates[..m], n, fails);
    BatchRunLength(updates[..m], n, fails);
    var (a, f) := BatchRun(updates[..m], n, fails);
    assert f.None?;
    assert |a| == m * n;
  }

  /** Once a prefix of the batch has raised, the rest of the batch is not tried. */
  lemma {:induction false} BatchRunStops(updates: seq<Update>, n: nat, fails: set<(nat, nat)>, k: nat)
    requires k <= |updates| && BatchRun(updates[..k], n, fails).1.Some?
    ensures BatchRun(updates, n, fails) == BatchRun(updates[..k], n, fails)
  {
    if k < |updates| {
      var m := |updates| - 1;
      assert updates[..m][..k] == updates[..k];
      BatchRunStops(updates[..m], n, fails, k);
    } else {
      assert updates[..k] == updates;
    }
  }

  /** One iteration of `_loop` from `offset`, with `n` matchers: the attempts
      it makes and how it ends. An empty batch leaves the offset as it is; a
      batch that completes moves it one past the latest update id. */
  function StepSpec(debug: bool, offset: Option<int>, batch: Batch, n: nat, fails: set<(nat, nat)>): (seq<Attempt>, Outcome)
  {
    if batch.updates == [] then ([], Continue(offset))
    else
      var (a, f) := BatchRun(batch.updates, n, fails);
      if f.Some? then (a, Raised(if debug then MatcherError(f.value.0, f.value.1) else LoggerAttributeError))
      else if batch.latest.None? then (a, Raised(LatestIdMissing))
      else (a, Continue(Some(batch.latest.value + 1)))
  }

  /** How an iteration ends. It goes on exactly when the batch is empty, or
      when no matcher raises and there is a latest id; the offset then stays,
      or becomes the latest id plus one. A raising matcher ends the loop in
      both modes: with its own exception in debug mode, with the logger's
      `AttributeError` otherwise. */
  lemma StepOutcome(debug: bool, offset: Option<int>, batch: Batch, n: nat, fails: set<(nat, nat)>)
    ensures var out := StepSpec(debug, offset, batch, n, fails).1;
            && (out.Continue? <==> batch.updates == [] || (NoFailures(|batch.updates|, n, fails) && batch.latest.Some?))
            && (batch.updates == [] ==> out == Continue(offset))
            && (batch.updates != [] && out.Continue? ==> out.offset == Some(batch.latest.value + 1))
            && (out.Raised? && out.error.MatcherError? ==> debug && (out.error.update, out.error.matcher) in fails)
            && (out == Raised(LoggerAttributeError) <==> !debug && batch.updates != [] && !NoFailures(|batch.updates|, n, fails))
  {
    BatchRunFailure(batch.updates, n, fails);
  }

  /** One iteration of `_loop` on what `get_updates` gave it: the poll is
      awaited outside the `try`, so an exception it raises ends the loop in
      both modes, before any matcher is tried. */
  function IterSpec(debug: bool, offset: Option<int>, polled: Result<Batch, string>, n: nat, fails: set<(nat, nat)>)
    : (seq<Attempt>, Outcome)
  {
    if polled.Err? then ([], Raised(PollError(polled.error))) else StepSpec(debug, offset, polled.value, n, fails)
  }

  /** The offsets of the first `c` iterations of `_loop`, the attempts of
      each, and how the last one ended. The loop stops at the first
      iteration that raises. `poll(c, o)` is the batch the transport returns
      in iteration `c` when asked from offset `o`, or the name of the
      exception the poll raised. */
  function LoopRun(debug: bool, n: nat, poll: (nat, Option<int>) -> Result<Batch, string>, fails: nat -> set<(nat, nat)>, c: nat)
    : (r: (seq<Option<int>>, seq<seq<Attempt>>, Outcome))
    ensures |r.1| == |r.0| <= c
  {
    if c == 0 then ([], [], Continue(None))
    else
      var (sent, attempts, out) := LoopRun(debug, n, poll, fails, c - 1);
      if out.Raised? then (sent, attempts, out)
      else
        var (a, next) := IterSpec(debug, out.offset, poll(c - 1, out.offset), n, fails(c - 1));
        (sent + [out.offset], attempts + [a], next)
  }

  /** The loop makes one iteration per bound step until one raises: an
      iteration that raised is the last. */
  lemma {:induction false} LoopLength(debug: bool, n: nat, poll: (nat, Option<int>) -> Result<Batch, string>,
                                      fails: nat -> set<(nat, nat)>, c: nat)
    ensures var (sent, attempts, out) := LoopRun(debug, n, poll, fails, c);
            && (c > 0 ==> |sent| > 0)
            && (|sent| < c ==> out.Raised?)
            && (c == 0 ==> out == Continue(None))
  {
    if c > 0 {
      LoopLength(debug, n, poll, fails, c - 1);
    }
  }

  /** Entry `k` of a run is iteration `k`: it starts from the offset the first
      `k` iterations ended with, and ends as the first `k + 1` iterations do. */
  lemma {:induction false} LoopEntry(debug: bool, n: nat, poll: (nat, Option<int>) -> Result<Batch, string>,
                                     fails: nat -> set<(nat, nat)>, c: nat, k: nat)
    requires k < |LoopRun(debug, n, poll, fails, c).0|
    ensures var (sent, attempts, _) := LoopRun(debug, n, poll, fails, c);
            var before := LoopRun(debug, n, poll, fails, k).2;
            var step := IterSpec(debug, sent[k], poll(k, sent[k]), n, fails(k));
            && before == Continue(sent[k])
            && attempts[k] == step.0
            && LoopRun(debug, n, poll, fails, k + 1).2 == step.1
  {
    if k < |LoopRun(debug, n, poll, fails, c - 1).0| {
      LoopEntry(debug, n, poll, fails, c - 1, k);
      LoopKeepsEntry(debug, n, poll, fails, c, k);
    } else {
      LoopEntryLast(debug, n, poll, fails, c);
    }
  }

  /** A longer bound keeps the entries of the shorter run. */
  lemma LoopKeepsEntry(debug: bool, n: nat, poll: (nat, Option<int>) -> Result<Batch, string>,
                       fails: nat -> set<(nat, nat)>, c: nat, k: nat)
    requires c > 0 && k < |LoopRun(debug, n, poll, fails, c - 1).0|
    ensures k < |LoopRun(debug, n, poll, fails, c).0|
    ensures LoopRun(debug, n, poll, fails, c).0[k] == LoopRun(debug, n, poll, fails, c - 1).0[k]
    ensures LoopRun(debug, n, poll, fails, c).1[k] == LoopRun(debug, n, poll, fails, c - 1).1[k]
  {
  }

  /** The iteration a run adds over the run one step shorter is iteration `c - 1`. */
  lemma LoopEntryLast(debug: bool, n: nat, poll: (nat, Option<int>) -> Result<Batch, string>,
                      fails: nat -> set<(nat, nat)>, c: nat)
    requires c > 0 && |LoopRun(debug, n, poll, fails, c - 1).0| < |LoopRun(debug, n, poll, fails, c).0|
    ensures var (sent, attempts, _) := LoopRun(debug, n, poll, fails, c);
            && |sent| == c
            && LoopRun(debug, n, poll, fails, c - 1).2 == Continue(sent[c - 1])
            && attempts[c - 1] == IterSpec(debug, sent[c - 1], poll(c - 1, sent[c - 1]), n, fails(c - 1)).0
            && LoopRun(debug, n, poll, fails, c).2 == IterSpec(debug, sent[c - 1], poll(c - 1, sent[c - 1]), n, fails(c - 1)).1
  {
    LoopLength(debug, n, poll, fails, c - 1);
  }

  /** The loop starts from no offset and feeds each iteration's resulting
      offset into the next poll; the last iteration's outcome is the loop's. */
  lemma LoopThreading(debug: bool, n: nat, poll: (nat, Option<int>) -> Result<Batch, string>,
                      fails: nat -> set<(nat, nat)>, c: nat, k: nat)
    requires k < |LoopRun(debug, n, poll, fails, c).0|
    ensures var (sent, attempts, out) := LoopRun(debug, n, poll, fails, c);
            var step := IterSpec(debug, sent[k], poll(k, sent[k]), n, fails(k));
            && (k == 0 ==> sent[k] == None)
            && attempts[k] == step.0
            && (k + 1 < |sent| ==> step.1 == Continue(sent[k + 1]))
            && (k + 1 == |sent| ==> out == step.1)
  {
    LoopEntry(debug, n, poll, fails, c, k);
    LoopLength(debug, n, poll, fails, 0);
    if k + 1 < |LoopRun(debug, n, poll, fails, c).0| {
      LoopEntry(debug, n, poll, fails, c, k + 1);
    } else {
      LoopOwnLength(debug, n, poll, fails, c);
    }
  }

  /** A run is the run of its own length: it either used its whole bound or
      stopped at the iteration that raised. */
  lemma LoopOwnLength(debug: bool, n: nat, poll: (nat, Option<int>) -> Result<Batch, string>,
                      fails: nat -> set<(nat, nat)>, c: nat)
    ensures |LoopRun(debug, n, poll, fails, c).0| <= c
    ensures LoopRun(debug, n, poll, fails, |LoopRun(debug, n, poll, fails, c).0|) == LoopRun(debug, n, poll, fails, c)
  {
    LoopLength(debug, n, poll, fails, c);
    if LoopRun(debug, n, poll, fails, c).2.Raised? {
      LoopRaisedPrefix(debug, n, poll, fails, c, |LoopRun(debug, n, poll, fails, c).0|);
    }
  }

  /** Running a raised loop with a larger bound changes nothing, so a raised
      run of `c` is the run of its own length. */
  lemma {:induction false} LoopRaisedPrefix(debug: bool, n: nat, poll: (nat, Option<int>) -> Result<Batch, string>,
                                            fails: nat -> set<(nat, nat)>, c: nat, k: nat)
    requires k <= c && LoopRun(debug, n, poll, fails, c).2.Raised? && |LoopRun(debug, n, poll, fails, c).0| == k
    ensures LoopRun(debug, n, poll, fails, k) == LoopRun(debug, n, poll, fails, c)
  {
    if k < c {
      LoopLength(debug, n, poll, fails, c - 1);
      var (sent, attempts, out) := LoopRun(debug, n, poll, fails, c - 1);
      assert out.Raised?;
      LoopRaisedPrefix(debug, n, poll, fails, c - 1, k);
    }
  }

  /** What `get_updates` hands the loop for a decoded answer `results`
      from `offset`: the valid updates and the folded latest id, or the
      `KeyError` of a record without an "update_id". */
  function DecodedPoll(offset: Option<int>, results: seq<RawUpdate>): Result<Batch, string>
  {
    if AllHaveIds(results) then Ok(Batch(ValidUpdates(results), LatestOf(offset, Ids(results)))) else Err("KeyError")
  }

  /** An iteration on an answer decoded by `get_updates`, with positive
      update ids and a non-negative offset. A record without an id ends the
      loop with the poll's `KeyError`, in both modes. When some record
      validates and no matcher raises, the loop goes on from an offset past
      every id of the answer, valid or not, so the next poll does not return
      those records again. When no record validates, the batch is empty and
      the offset stays as it was, so the same records are asked for again. */
  lemma ContinuesPastBatch(debug: bool, offset: Option<int>, results: seq<RawUpdate>, n: nat, fails: set<(nat, nat)>)
    requires forall k :: 0 <= k < |results| && results[k].updateId.Some? ==> results[k].updateId.value > 0
    requires offset.Some? ==> offset.value >= 0
    ensures var out := IterSpec(debug, offset, DecodedPoll(offset, results), n, fails).1;
            && (!AllHaveIds(results) ==> out == Raised(PollError("KeyError")))
            && (AllHaveIds(results) && ValidUpdates(results) != [] && NoFailures(|ValidUpdates(results)|, n, fails) ==>
                  out.Continue?)
            && (AllHaveIds(results) && ValidUpdates(results) != [] && out.Continue? ==>
                  forall k :: 0 <= k < |results| ==> results[k].updateId.value < out.offset.value)
            && (AllHaveIds(results) && ValidUpdates(results) == [] ==> out == Continue(offset))
  {
    if AllHaveIds(results) {
      var idx := ValidUpdatesSelection(results);
      var ids := Ids(results);
      LatestOfIsMaximum(offset, ids);
      var batch := Batch(ValidUpdates(results), LatestOf(offset, ids));
      StepOutcome(debug, offset, batch, n, fails);
      if batch.updates != [] {
        assert ids != [] by { assert |ids| == |results| && idx[0] < |results|; }
      }
    }
  }

  /** A poll that raises in iteration `k` makes `k` the last iteration: no
      matcher is tried in it, and the loop ends with the poll's exception,
      whatever the debug flag. */
  lemma PollErrorEndsLoop(debug: bool, n: nat, poll: (nat, Option<int>) -> Result<Batch, string>,
                          fails: nat -> set<(nat, nat)>, c: nat, k: nat)
    requires k < |LoopRun(debug, n, poll, fails, c).0|
    requires poll(k, LoopRun(debug, n, poll, fails, c).0[k]).Err?
    ensures var (sent, attempts, out) := LoopRun(debug, n, poll, fails, c);
            && |sent| == k + 1
            && attempts[k] == []
            && out == Raised(PollError(poll(k, sent[k]).error))
  {
    LoopThreading(debug, n, poll, fails, c, k);
  }

  /** While every poll from no offset returns an empty batch (no record of
      the answer validates), the loop never raises and polls from no offset
      in every iteration. */
  lemma {:induction false} RepollsEmptyBatches(debug: bool, n: nat, poll: (nat, Option<int>) -> Result<Batch, string>,
                                               fails: nat -> set<(nat, nat)>, c: nat)
    requires forall j: nat :: j < c ==> poll(j, None).Ok? && poll(j, None).value.updates == []
    ensures var (sent, attempts, out) := LoopRun(debug, n, poll, fails, c);
            && out == Continue(None)
            && |sent| == c
            && forall k :: 0 <= k < |sent| ==> sent[k] == None && attempts[k] == []
  {
    if c > 0 {
      RepollsEmptyBatches(debug, n, poll, fails, c - 1);
    }
  }

  /** The signals `serve` hands a shutdown callback to. */
  datatype Signal = SIGINT | SIGTERM

  /** The leading signals of `sigs` the event loop supports: installation
      stops at the first unsupported one. */
  function LeadingSupported(sigs: seq<Signal>, supported: set<Signal>): (r: seq<Signal>)
    ensures r <= sigs
    ensures forall k :: 0 <= k < |r| ==> r[k] in supported
    ensures |r| < |sigs| ==> sigs[|r|] !in supported
  {
    if sigs == [] || sigs[0] !in supported then []
    else [sigs[0]] + LeadingSupported(sigs[1..], supported)
  }

  /** The parts of `serve`, in the order they happen. */
  datatype Phase =
    | SignalsInstalled(signals: seq<Signal>)
    | Started(calls: seq<Invocation>)
    | Polling(sent: seq<Option<int>>, attempts: seq<seq<Attempt>>, outcome: Outcome)

  /** `WatchDogBot`: an events matcher (`core`, which holds the bot's own
      handlers and, as its children, the matchers the loop tries). */
  class WatchDogBot {
    const debug: bool
    const token: string
    const core: Matcher

    ghost predicate Valid()
      reads this, core, core.Repr
    {
      core.Valid() && core.kind == EventsKind
    }

    /** `__init__`: an empty events matcher whose matchers are a copy of the
        given ones (none when none are given). */
    constructor (token: string, matchers: seq<Matcher> := [], debug: bool := false)
      requires forall k :: 0 <= k < |matchers| ==> matchers[k].Valid()
      ensures Valid() && fresh(core)
      ensures this.token == token && this.debug == debug
      ensures core.matchers == matchers && core.handlers == HandlerTable(map[], []) && core.helpMessages == []
    {
      var c := new Matcher(EventsKind);
      c.AddMatchers(matchers);
      this.token := token;
      this.debug := debug;
      core := c;
    }

    /** `add_matcher`: the matcher goes last. */
    method AddMatcher(m: Matcher)
      requires Valid() && m.Valid() && core !in m.Repr
      modifies core
      ensures Valid()
      ensures core.matchers == old(core.matchers) + [m]
      ensures core.handlers == old(core.handlers) && core.helpMessages == old(core.helpMessages)
    {
      core.AddMatchers([m]);
    }

    /** One iteration of `_loop` from `offset` on `batch`. */
    method Step(offset: Option<int>, batch: Batch, fails: set<(nat, nat)>) returns (attempts: seq<Attempt>, outcome: Outcome)
      ensures (attempts, outcome) == StepSpec(debug, offset, batch, |core.matchers|, fails)
    {
      var updates := batch.updates;
      if updates == [] {
        return [], Continue(offset);
      }
      var n := |core.matchers|;
      attempts := [];
      var i := 0;
      while i < |updates|
        invariant 0 <= i <= |updates|
        invariant BatchRun(updates[..i], n, fails) == (attempts, None)
      {
        var update := updates[i];
        ghost var before := attempts;
        var j := 0;
        while j < n
          invariant 0 <= j <= n
          invariant FirstFailure(fails, i, j) == None
          invariant attempts == before + Row(i, j, update.message)
        {
          RowExtend(i, j, update.message);
          attempts := attempts + [Attempt(i, j, update.message)];
          assert attempts == before + Row(i, j + 1, update.message);
          if (i, j) in fails {
            RaisedAt(updates, n, fails, i, j, before);
            outcome := Raised(if debug then MatcherError(i, j) else LoggerAttributeError);
            return;
          }
          j := j + 1;
        }
        NextUpdate(updates, n, fails, i, before);
        i := i + 1;
      }
      assert updates[..i] == updates;
      if batch.latest.None? {
        return attempts, Raised(LatestIdMissing);
      }
      outcome := Continue(Some(batch.latest.value + 1));
    }

    /** The bookkeeping of a raising attempt: the whole batch's run is the
        run up to update `i`, ending at matcher `j`. */
    static lemma RaisedAt(updates: seq<Update>, n: nat, fails: set<(nat, nat)>, i: nat, j: nat,
                          before: seq<Attempt>)
      requires i < |updates| && j < n && (i, j) in fails
      requires BatchRun(updates[..i], n, fails) == (before, None)
      requires FirstFailure(fails, i, j) == None
      ensures BatchRun(updates, n, fails) == (before + Row(i, j + 1, updates[i].message), Some((i, j)))
    {
      assert FirstFailure(fails, i, j + 1) == Some(j);
      FirstFailureExtends(fails, i, j + 1, n);
      RunThroughUpdate(updates, n, fails, i, before);
      BatchRunStops(updates, n, fails, i + 1);
    }

    /** `_loop` for at most `cycles` iterations: the offsets it polls from,
        the attempts of each iteration, and how the last one ended. */
    method Loop(poll: (nat, Option<int>) -> Result<Batch, string>, fails: nat -> set<(nat, nat)>, cycles: nat)
      returns (sent: seq<Option<int>>, attempts: seq<seq<Attempt>>, outcome: Outcome)
      ensures (sent, attempts, outcome) == LoopRun(debug, |core.matchers|, poll, fails, cycles)
    {
      sent, attempts, outcome := [], [], Continue(None);
      var c := 0;
      while c < cycles
        invariant 0 <= c <= cycles
        invariant (sent, attempts, outcome) == LoopRun(debug, |core.matchers|, poll, fails, c)
        invariant outcome.Continue?
      {
        var offset := outcome.offset;
        var polled := poll(c, offset);
        var a: seq<Attempt>, next: Outcome;
        if polled.Err? {
          a, next := [], Raised(PollError(polled.error));
        } else {
          a, next := Step(offset, polled.value, fails(c));
        }
        sent, attempts, outcome := sent + [offset], attempts + [a], next;
        c := c + 1;
        if outcome.Raised? {
          LoopStops(debug, |core.matchers|, poll, fails, c, cycles);
          return;
        }
      }
    }

    /** `_close`: the SHUTDOWN handlers are called. */
    method Close() returns (calls: seq<Invocation>)
      ensures calls == CallSpec(core.handlers, Event(Shutdown), None, map[])
    {
      calls := core.Call(Event(Shutdown), None, map[]);
    }

    /** A delivered signal runs `_close` exactly when a handler was installed for it. */
    method Deliver(installed: seq<Signal>, sig: Signal) returns (calls: Option<seq<Invocation>>)
      ensures calls.Some? <==> sig in installed
      ensures calls.Some? ==> calls.value == CallSpec(core.handlers, Event(Shutdown), None, map[])
    {
      if sig in installed {
        var c := Close();
        return Some(c);
      }
      return None;
    }

    /** The handler installation of `serve`: SIGINT, then SIGTERM, stopping
        at the first the event loop does not support. */
    static method InstallSignalHandlers(supported: set<Signal>) returns (installed: seq<Signal>)
      ensures installed == LeadingSupported([SIGINT, SIGTERM], supported)
    {
      var sigs := [SIGINT, SIGTERM];
      installed := [];
      var i := 0;
      while i < |sigs|
        invariant 0 <= i <= |sigs|
        invariant LeadingSupported(sigs, supported) == installed + LeadingSupported(sigs[i..], supported)
      {
        if sigs[i] !in supported {
          break;
        }
        assert sigs[i..][1..] == sigs[i + 1..];
        installed := installed + [sigs[i]];
        i := i + 1;
      }
    }

    /** `serve`: the signal handlers are installed, then the STARTUP handlers
        are called, then the loop runs. */
    method Serve(supported: set<Signal>, poll: (nat, Option<int>) -> Result<Batch, string>, fails: nat -> set<(nat, nat)>, cycles: nat)
      returns (phases: seq<Phase>)
      ensures phases == [SignalsInstalled(LeadingSupported([SIGINT, SIGTERM], supported)),
                         Started(CallSpec(core.handlers, Event(Startup), None, map[])),
                         var (sent, attempts, outcome) := LoopRun(debug, |core.matchers|, poll, fails, cycles);
                         Polling(sent, attempts, outcome)]
    {
      var installed := InstallSignalHandlers(supported);
      var started := core.Call(Event(Startup), None, map[]);
      var sent, attempts, outcome := Loop(poll, fails, cycles);
      phases := [SignalsInstalled(installed), Started(started), Polling(sent, attempts, outcome)];
    }
  }

  /** One more matcher on the same update extends the row by its attempt. */
  lemma RowExtend(i: nat, j: nat, message: TransportModels.Message)
    ensures Row(i, j + 1, message) == Row(i, j, message) + [Attempt(i, j, message)]
  {
    assert Row(i, j + 1, message)[..j] == Row(i, j, message);
  }

  /** After a prefix of the batch that raised nothing, the run through update
      `i` adds that update's tried matchers. */
  lemma RunThroughUpdate(updates: seq<Update>, n: nat, fails: set<(nat, nat)>, i: nat, before: seq<Attempt>)
    requires i < |updates| && BatchRun(updates[..i], n, fails) == (before, None)
    ensures BatchRun(updates[..i + 1], n, fails).0 == before + TriedOn(updates[i], i, n, fails)
    ensures BatchRun(updates[..i + 1], n, fails).1 ==
              match FirstFailure(fails, i, n) case None => None case Some(j) => Some((i, j))
  {
    assert updates[..i + 1][..i] == updates[..i];
    assert updates[..i + 1][i] == updates[i];
  }

  /** An update on which no matcher raises adds a full row. */
  lemma NextUpdate(updates: seq<Update>, n: nat, fails: set<(nat, nat)>, i: nat, before: seq<Attempt>)
    requires i < |updates| && BatchRun(updates[..i], n, fails) == (before, None)
    requires FirstFailure(fails, i, n) == None
    ensures BatchRun(updates[..i + 1], n, fails) == (before + Row(i, n, updates[i].message), None)
  {
    RunThroughUpdate(updates, n, fails, i, before);
  }

  /** Extending the matchers past the first raising one keeps it first. */
  lemma {:induction false} FirstFailureExtends(fails: set<(nat, nat)>, i: nat, j: nat, n: nat)
    requires j <= n && FirstFailure(fails, i, j).Some?
    ensures FirstFailure(fails, i, n) == FirstFailure(fails, i, j)
  {
    if n > j {
      FirstFailureExtends(fails, i, j, n - 1);
    }
  }

  /** A loop that has raised stays as it is for any larger bound. */
  lemma {:induction false} LoopStops(debug: bool, n: nat, poll: (nat, Option<int>) -> Result<Batch, string>,
                                     fails: nat -> set<(nat, nat)>, c: nat, cycles: nat)
    requires c <= cycles && LoopRun(debug, n, poll, fails, c).2.Raised?
    ensures LoopRun(debug, n, poll, fails, cycles) == LoopRun(debug, n, poll, fails, c)
  {
    if c < cycles {
      LoopStops(debug, n, poll, fails, c, cycles - 1);
    }
  }
}
