/**
  The response handler of one watch, as a step function. A watch keeps the
  number of consecutive failed polls, the value it last delivered (initially
  the undefined value) and the poll it is waiting on, with the block index
  that poll was sent with. Each event that settles the outstanding poll
  decides whether the caller's sink is invoked, the new state, and what the
  loop does next. Timers and the transport become the `Action` the step
  returns and the `Event` it consumes; whether the key's path is still in
  the registry and what the sink answers are inputs of the step.
 */
module WatchStep {
  import opened KvTypes

  /**
    The collaborators the handler calls but does not define: the payload
    decoder, structural equality of decoded values, and the value the last
    delivered value starts as (JavaScript's undefined).
   */
  datatype Codec<!V> = Codec(decode: Option<string> -> V, equal: (V, V) -> bool, undefinedValue: V)

  /** The key path being watched and the client's retry budget. */
  datatype Config = Config(path: string, maxRetries: int)

  /** An outstanding poll settles: the request resolved with a response, or it was rejected. */
  datatype Event = Resolved(response: Response) | Rejected(message: string)

  /**
    One settled poll together with what the rest of the client decides at
    that moment: whether the path is still registered, and what the sink
    returns should it be called with a value.
   */
  datatype Input = Input(event: Event, registered: bool, ack: bool)

  /** Whether a poll is outstanding, and with which block index. */
  datatype Poll = Idle | Awaiting(index: Option<int>)

  datatype WatchState<V> = WatchState(numRetries: int, currentValue: V, poll: Poll)

  /** What the sink sees from one step. */
  datatype SinkCall<V> = NoCall | Deliver(value: V) | Fail(message: string)

  /**
    What the loop does next: poll at once with a new block index, poll after
    the fixed delay with the given block index (none meaning no index), or
    issue nothing further.
   */
  datatype Action = PollNow(newIndex: int) | RetryLater(sameIndex: Option<int>) | Stop

  datatype Outcome<V> = Outcome(state: WatchState<V>, call: SinkCall<V>, next: Action)

  /** The delay, in milliseconds, before every re-poll that is not immediate. */
  const RetryDelayMillis: nat := 5000

  /**
    The run-time message of reading a field of the missing first envelope
    element, in the wording of current V8-based runtimes (older ones say
    "Cannot read property 'ModifyIndex' of undefined").
   */
  const EnvelopeFault: string := "Cannot read properties of undefined (reading 'ModifyIndex')"

  /** The message of the terminal error the sink receives. */
  function ErrorText(path: string, reason: string): string
  {
    "Error retrieving key[" + path + "]: " + reason + "."
  }

  /** The poll outstanding after an action. */
  function PollAfter(a: Action): Poll
  {
    match a
    case PollNow(i) => Awaiting(Some(i))
    case RetryLater(i) => Awaiting(i)
    case Stop => Idle
  }

  /** A fresh watch: no failures, nothing delivered, the first poll sent without a block index. */
  function Start<V>(codec: Codec<V>): (s: WatchState<V>)
    ensures s.numRetries == 0 && s.currentValue == codec.undefinedValue
    ensures s.poll == PollAfter(RetryLater(None))
  {
    WatchState(0, codec.undefinedValue, Awaiting(None))
  }

  /**
    The retry counter never exceeds the budget; with a negative budget it is
    never incremented at all.
   */
  predicate RetryBound<V>(cfg: Config, s: WatchState<V>)
  {
    0 <= s.numRetries && (s.numRetries == 0 || s.numRetries <= cfg.maxRetries)
  }

  function Emit<V>(numRetries: int, currentValue: V, call: SinkCall<V>, next: Action): Outcome<V>
  {
    Outcome(WatchState(numRetries, currentValue, PollAfter(next)), call, next)
  }

  /**
    A failed poll (a rejected request, an unexpected status, or a 200 without
    an envelope element): retry after the delay with no block index while the
    budget lasts, otherwise hand the sink a terminal error and stop.
   */
  function Failed<V>(cfg: Config, s: WatchState<V>, reason: string): (r: Outcome<V>)
    ensures r.state.currentValue == s.currentValue
    ensures s.numRetries < cfg.maxRetries ==>
              r.call.NoCall? && r.next == RetryLater(None) && r.state.numRetries == s.numRetries + 1
    ensures cfg.maxRetries <= s.numRetries ==>
              r.call == Fail(ErrorText(cfg.path, reason)) && r.next.Stop? && r.state.numRetries == s.numRetries
  {
    if s.numRetries < cfg.maxRetries then
      Emit(s.numRetries + 1, s.currentValue, NoCall, RetryLater(None))
    else
      Emit(s.numRetries, s.currentValue, Fail(ErrorText(cfg.path, reason)), Stop)
  }

  /** The handler of one settled poll. */
  function Step<V>(cfg: Config, codec: Codec<V>, s: WatchState<V>, inp: Input): (r: Outcome<V>)
    requires s.poll.Awaiting?
    ensures r.state.poll == PollAfter(r.next)
    ensures RetryBound(cfg, s) ==> RetryBound(cfg, r.state)
    // a response for a path no longer registered changes nothing and ends the loop
    ensures inp.event.Resolved? && !inp.registered ==>
              r == Outcome(s.(poll := Idle), NoCall, Stop)
    // the last delivered value changes only by being delivered, and never to an equal one
    ensures r.state.currentValue != s.currentValue ==> r.call.Deliver?
    ensures r.call.Deliver? ==>
              && inp.registered && inp.event.Resolved? && FirstEntry(inp.event.response.body).Some?
              && r.call.value == codec.decode(inp.event.response.body.items[0].value)
              && r.state.currentValue == r.call.value
              && !codec.equal(s.currentValue, r.call.value)
              && r.state.numRetries == 0
              && r.next == (if inp.ack then PollNow(inp.event.response.body.items[0].modifyIndex) else Stop)
    // a well-formed 200 clears the failure history
    ensures (&& inp.registered && inp.event.Resolved? && inp.event.response.statusCode == 200
             && FirstEntry(inp.event.response.body).Some?) ==> r.state.numRetries == 0
    // a well-formed 200 that is not delivered waits the delay and polls the same block index again
    ensures (&& inp.registered && inp.event.Resolved? && inp.event.response.statusCode == 200
             && FirstEntry(inp.event.response.body).Some? && !r.call.Deliver?) ==>
              r == Outcome(WatchState(0, s.currentValue, s.poll), NoCall, RetryLater(s.poll.index))
    // a rejection, an unexpected status or a 200 without an envelope element is a failed poll
    ensures FailsPoll(inp) ==> r == Failed(cfg, s, FailureReason(inp.event))
    // a terminal error is only reported once the budget is spent, and is the last thing done
    ensures r.call.Fail? ==> r.next.Stop? && cfg.maxRetries <= s.numRetries
  {
    match inp.event
    case Rejected(m) => Failed(cfg, s, m)
    case Resolved(res) =>
      if !inp.registered then
        Emit(s.numRetries, s.currentValue, NoCall, Stop)
      else if res.statusCode == 200 then
        match FirstEntry(res.body)
        case None => Failed(cfg, s, EnvelopeFault)
        case Some(m) =>
          var nextValue := codec.decode(m.value);
          if Some(m.modifyIndex) != s.poll.index && !codec.equal(s.currentValue, nextValue) then
            Emit(0, nextValue, Deliver(nextValue), if inp.ack then PollNow(m.modifyIndex) else Stop)
          else
            Emit(0, s.currentValue, NoCall, RetryLater(s.poll.index))
      else if res.statusCode == 404 then
        if s.numRetries < cfg.maxRetries then
          Emit(s.numRetries + 1, s.currentValue, NoCall, RetryLater(None))
        else
          Emit(s.numRetries, s.currentValue, NoCall, Stop)
      else
        Failed(cfg, s, res.statusMessage)
  }

  /** The state and the sink calls after a watch consumes a sequence of settled polls. */
  datatype Trace<V> = Trace(final: WatchState<V>, calls: seq<SinkCall<V>>)

  function Emitted<V>(c: SinkCall<V>): seq<SinkCall<V>>
  {
    if c.NoCall? then [] else [c]
  }

  /**
    Feeds the inputs to the handler one at a time; once the loop has stopped
    no poll is outstanding, so later inputs cannot occur and are ignored.
   */
  function Run<V>(cfg: Config, codec: Codec<V>, s: WatchState<V>, inputs: seq<Input>): (r: Trace<V>)
    ensures s.poll.Idle? ==> r == Trace(s, [])
    ensures |r.calls| <= |inputs|
    decreases |inputs|
  {
    if |inputs| == 0 || s.poll.Idle? then Trace(s, [])
    else
      var o := Step(cfg, codec, s, inputs[0]);
      var t := Run(cfg, codec, o.state, inputs[1..]);
      Trace(t.final, Emitted(o.call) + t.calls)
  }

  /** A poll that counts against the retry budget and ends in a terminal error once it is spent. */
  predicate FailsPoll(inp: Input)
  {
    match inp.event
    case Rejected(_) => true
    case Resolved(res) =>
      inp.registered && res.statusCode != 404 &&
      (res.statusCode == 200 ==> FirstEntry(res.body).None?)
  }

  /** The reason a failing poll puts into the terminal error. */
  function FailureReason(ev: Event): string
  {
    match ev
    case Rejected(m) => m
    case Resolved(res) => if res.statusCode == 200 then EnvelopeFault else res.statusMessage
  }

  ghost predicate IsEquivalence<V(!new)>(eq: (V, V) -> bool)
  {
    && (forall x :: eq(x, x))
    && (forall x, y :: eq(x, y) ==> eq(y, x))
    && (forall x, y, z :: eq(x, y) && eq(y, z) ==> eq(x, z))
  }

  /**
    The sink delivers exactly when the path is registered, a well-formed 200
    arrives whose modify index differs from the block index, and its decoded
    value is not equal to the last delivered one.
   */
  lemma DeliveryCondition<V>(cfg: Config, codec: Codec<V>, s: WatchState<V>, inp: Input)
    requires s.poll.Awaiting?
    ensures Step(cfg, codec, s, inp).call.Deliver? <==>
              && inp.registered && inp.event.Resolved? && inp.event.response.statusCode == 200
              && FirstEntry(inp.event.response.body).Some?
              && Some(inp.event.response.body.items[0].modifyIndex) != s.poll.index
              && !codec.equal(s.currentValue, codec.decode(inp.event.response.body.items[0].value))
  {
  }

  /**
    A 200 whose modify index equals the block index never reaches the sink:
    the failure history is cleared and the same index is polled after the delay.
   */
  lemma UnchangedIndexWaits<V>(cfg: Config, codec: Codec<V>, s: WatchState<V>,
                                i: int, payload: Option<string>, rest: seq<Metadata>, msg: string, ack: bool)
    requires s.poll == Awaiting(Some(i))
    ensures Step(cfg, codec, s, Input(Resolved(Response(200, msg, Entries([Metadata(i, payload)] + rest))), true, ack))
            == Outcome(WatchState(0, s.currentValue, s.poll), NoCall, RetryLater(Some(i)))
  {
  }

  /**
    A 200 with a new modify index but a value equal to the last delivered one
    never reaches the sink either: it waits the delay and polls the same
    block index again, rather than polling at once.
   */
  lemma EqualValueWaits<V>(cfg: Config, codec: Codec<V>, s: WatchState<V>,
                           m: Metadata, rest: seq<Metadata>, msg: string, ack: bool)
    requires s.poll.Awaiting? && Some(m.modifyIndex) != s.poll.index
    requires codec.equal(s.currentValue, codec.decode(m.value))
    ensures Step(cfg, codec, s, Input(Resolved(Response(200, msg, Entries([m] + rest))), true, ack))
            == Outcome(WatchState(0, s.currentValue, s.poll), NoCall, RetryLater(s.poll.index))
  {
  }

  /**
    A 404 never reaches the sink: it re-polls without a block index while
    the budget lasts and stops silently after.
   */
  lemma NotFoundIsSilent<V>(cfg: Config, codec: Codec<V>, s: WatchState<V>, msg: string, body: Body, ack: bool)
    requires s.poll.Awaiting?
    ensures var r := Step(cfg, codec, s, Input(Resolved(Response(404, msg, body)), true, ack));
      && r.call.NoCall? && r.state.currentValue == s.currentValue
      && (if s.numRetries < cfg.maxRetries
          then r.next == RetryLater(None) && r.state.numRetries == s.numRetries + 1
          else r.next.Stop? && r.state.numRetries == s.numRetries)
  {
  }

  /**
    A rejected poll is handled the same whether or not the path is still
    registered: unlike a resolved one, it is never discarded as stale.
   */
  lemma RejectionIgnoresRegistry<V>(cfg: Config, codec: Codec<V>, s: WatchState<V>, m: string, ack: bool)
    requires s.poll.Awaiting?
    ensures Step(cfg, codec, s, Input(Rejected(m), false, ack)) == Step(cfg, codec, s, Input(Rejected(m), true, ack))
    ensures Step(cfg, codec, s, Input(Rejected(m), false, ack)) == Failed(cfg, s, m)
  {
  }

  /** A resolved response after the path left the registry ends the watch with no sink call. */
  lemma StaleResponseEndsWatch<V>(cfg: Config, codec: Codec<V>, s: WatchState<V>, res: Response, ack: bool, later: seq<Input>)
    requires s.poll.Awaiting?
    ensures Run(cfg, codec, s, [Input(Resolved(res), false, ack)] + later) == Trace(s.(poll := Idle), [])
  {
    var inputs := [Input(Resolved(res), false, ack)] + later;
    assert inputs[1..] == later;
  }

  /** Every step keeps the retry counter within the budget. */
  lemma {:induction false} RunKeepsRetryBound<V>(cfg: Config, codec: Codec<V>, s: WatchState<V>, inputs: seq<Input>)
    requires RetryBound(cfg, s)
    ensures RetryBound(cfg, Run(cfg, codec, s, inputs).final)
    decreases |inputs|
  {
    if |inputs| > 0 && s.poll.Awaiting? {
      RunKeepsRetryBound(cfg, codec, Step(cfg, codec, s, inputs[0]).state, inputs[1..]);
    }
  }

  /**
    The sink is only ever called with values, except possibly for a single
    terminal error, which is the last call and after which nothing is polled.
   */
  lemma {:induction false} ErrorEndsTheRun<V>(cfg: Config, codec: Codec<V>, s: WatchState<V>, inputs: seq<Input>)
    ensures var t := Run(cfg, codec, s, inputs);
      && (forall i :: 0 <= i < |t.calls| ==> !t.calls[i].NoCall?)
      && (forall i :: 0 <= i < |t.calls| - 1 ==> t.calls[i].Deliver?)
      && (|t.calls| > 0 && t.calls[|t.calls| - 1].Fail? ==> t.final.poll.Idle?)
    decreases |inputs|
  {
    if |inputs| > 0 && s.poll.Awaiting? {
      var o := Step(cfg, codec, s, inputs[0]);
      ErrorEndsTheRun(cfg, codec, o.state, inputs[1..]);
      if o.call.Fail? {
        assert Run(cfg, codec, o.state, inputs[1..]) == Trace(o.state, []);
      }
    }
  }

  /**
    The first value delivered differs from the last one delivered before,
    and no two successive deliveries are equal.
   */
  lemma {:induction false} DeliveriesNeverRepeat<V>(cfg: Config, codec: Codec<V>, s: WatchState<V>, inputs: seq<Input>)
    ensures var c := Run(cfg, codec, s, inputs).calls;
      && (|c| > 0 && c[0].Deliver? ==> !codec.equal(s.currentValue, c[0].value))
      && (forall i :: 0 <= i < |c| - 1 && c[i].Deliver? && c[i + 1].Deliver? ==>
            !codec.equal(c[i].value, c[i + 1].value))
    decreases |inputs|
  {
    if |inputs| > 0 && s.poll.Awaiting? {
      var o := Step(cfg, codec, s, inputs[0]);
      DeliveriesNeverRepeat(cfg, codec, o.state, inputs[1..]);
      var rest := Run(cfg, codec, o.state, inputs[1..]).calls;
      var c := Run(cfg, codec, s, inputs).calls;
      assert c == Emitted(o.call) + rest;
      if o.call.Fail? {
        assert rest == [];
      } else if o.call.Deliver? {
        assert c[1..] == rest;
      }
    }
  }

  /** With structural equality an equivalence, two successive deliveries are unequal either way round. */
  lemma ConsecutiveDeliveriesDiffer<V(!new)>(cfg: Config, codec: Codec<V>, s: WatchState<V>, inputs: seq<Input>, i: nat)
    requires IsEquivalence(codec.equal)
    requires i + 1 < |Run(cfg, codec, s, inputs).calls|
    ensures var c := Run(cfg, codec, s, inputs).calls;
      c[i].Deliver? && (c[i + 1].Deliver? ==>
        !codec.equal(c[i].value, c[i + 1].value) && !codec.equal(c[i + 1].value, c[i].value))
  {
    ErrorEndsTheRun(cfg, codec, s, inputs);
    DeliveriesNeverRepeat(cfg, codec, s, inputs);
  }

  /**
    From k consecutive failures, maxRetries - k + 1 more failing polls
    produce exactly one sink call, a terminal error carrying the last
    failure's reason, and leave nothing polled.
   */
  lemma {:induction false} FailuresExhaustRetries<V>(cfg: Config, codec: Codec<V>, s: WatchState<V>, inputs: seq<Input>)
    requires s.poll.Awaiting? && 0 <= s.numRetries <= cfg.maxRetries
    requires |inputs| == cfg.maxRetries - s.numRetries + 1
    requires forall i :: 0 <= i < |inputs| ==> FailsPoll(inputs[i])
    ensures var t := Run(cfg, codec, s, inputs);
      && t.calls == [Fail(ErrorText(cfg.path, FailureReason(inputs[|inputs| - 1].event)))]
      && t.final.poll.Idle? && t.final.numRetries == cfg.maxRetries
      && t.final.currentValue == s.currentValue
    decreases |inputs|
  {
    var o := Step(cfg, codec, s, inputs[0]);
    assert o == Failed(cfg, s, FailureReason(inputs[0].event));
    if s.numRetries == cfg.maxRetries {
      assert Run(cfg, codec, o.state, inputs[1..]) == Trace(o.state, []);
    } else {
      FailuresExhaustRetries(cfg, codec, o.state, inputs[1..]);
      assert inputs[1..][|inputs[1..]| - 1] == inputs[|inputs| - 1];
    }
  }

  /**
    The same number of 404s stops the watch silently instead: no sink call
    at all, and nothing polled afterwards.
   */
  lemma {:induction false} NotFoundExhaustsRetries<V>(cfg: Config, codec: Codec<V>, s: WatchState<V>, inputs: seq<Input>)
    requires s.poll.Awaiting? && 0 <= s.numRetries <= cfg.maxRetries
    requires |inputs| == cfg.maxRetries - s.numRetries + 1
    requires forall i :: 0 <= i < |inputs| ==>
               inputs[i].registered && inputs[i].event.Resolved? && inputs[i].event.response.statusCode == 404
    ensures var t := Run(cfg, codec, s, inputs);
      && t.calls == []
      && t.final.poll.Idle? && t.final.numRetries == cfg.maxRetries
      && t.final.currentValue == s.currentValue
    decreases |inputs|
  {
    var o := Step(cfg, codec, s, inputs[0]);
    if s.numRetries == cfg.maxRetries {
      assert Run(cfg, codec, o.state, inputs[1..]) == Trace(o.state, []);
    } else {
      NotFoundExhaustsRetries(cfg, codec, o.state, inputs[1..]);
    }
  }
}
