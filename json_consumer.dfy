/**
 * JsonConsumer<T>.ConsumeAsync: decode the payload, run the handler, and on a handler failure
 * either rethrow at once (the attempt limit is reached) or wait one second and then rethrow.
 * The consumer never retries by itself; redelivery is left to the broker.
 */
module Consumers {
  import opened Wrappers
  import opened Messages

  /** The retry delay, in seconds (TimeSpan.FromSeconds(1)). */
  const RetryDelaySeconds: nat := 1

  /** The exception thrown when the payload decodes to null. */
  const DeserializeFailure: Exception := Exception("JsonException", "Unable to deserialize message body.")

  /** What ToObjectFromJson<T> does with a payload: a value, null, or an exception. */
  datatype Decoded<T> = Value(value: T) | Null | Throws(error: Exception)

  /** How ConsumeMessageAsync ends. */
  datatype HandlerResult = Returned | Threw(error: Exception)

  /** The decision taken after the handler has run. */
  datatype Decision = Completed | RetryAfterDelay | Terminal

  /** How the task returned by ConsumeAsync ends. */
  datatype Completion = RanToCompletion | Faulted(error: Exception) | Canceled

  /** The observable steps of one call, in order. */
  datatype Step = HandlerInvoked | LoggedError(attempt: int) | LoggedWarning(attempt: int) | Delayed(seconds: nat)

  datatype Run = Run(completion: Completion, steps: seq<Step>)

  /**
   * The retry/terminal decision as a pure function of the handler result and the attempt counts.
   * The boundary is inclusive on the terminal side.
   */
  function Decide(result: HandlerResult, deliveryAttempt: int, maxDeliveryAttempts: int): (d: Decision)
    ensures d == Completed <==> result.Returned?
    ensures d == Terminal <==> result.Threw? && deliveryAttempt >= maxDeliveryAttempts
    ensures d == RetryAfterDelay <==> result.Threw? && deliveryAttempt < maxDeliveryAttempts
  {
    match result
    case Returned => Completed
    case Threw(_) => if deliveryAttempt >= maxDeliveryAttempts then Terminal else RetryAfterDelay
  }

  /** True when some step of the run is a delay. */
  predicate HasDelay(steps: seq<Step>)
  {
    exists i :: 0 <= i < |steps| && steps[i].Delayed?
  }

  /** The number of delays among the steps. */
  function DelayCount(steps: seq<Step>): (n: nat)
    ensures n <= |steps|
    ensures n == 0 <==> !HasDelay(steps)
  {
    if steps == [] then 0
    else DelayCount(steps[..|steps| - 1]) + (if steps[|steps| - 1].Delayed? then 1 else 0)
  }

  /** True when some step of the run logs at warning or error level. */
  predicate HasFailureLog(steps: seq<Step>)
  {
    exists i :: 0 <= i < |steps| && (steps[i].LoggedError? || steps[i].LoggedWarning?)
  }

  /** The number of warning- or error-level log steps. */
  function FailureLogCount(steps: seq<Step>): (n: nat)
    ensures n <= |steps|
    ensures n == 0 <==> !HasFailureLog(steps)
  {
    if steps == [] then 0
    else FailureLogCount(steps[..|steps| - 1]) + (if steps[|steps| - 1].LoggedError? || steps[|steps| - 1].LoggedWarning? then 1 else 0)
  }

  /**
   * The whole effect of ConsumeAsync. `decode` is ToObjectFromJson<T>, `handler` is
   * ConsumeMessageAsync (it may read the MessageContext property, hence its second argument),
   * and `cancelledDuringDelay` says whether the token cancels the one-second delay.
   */
  function Consume<T>(ctx: MessageContext, decode: seq<byte> -> Decoded<T>,
                      handler: (T, MessageContext) -> HandlerResult, cancelledDuringDelay: bool): (r: Run)
    // a payload that does not decode fails before the handler, the attempt check and any delay
    ensures !decode(ctx.rawPayload).Value? ==>
              r.completion.Faulted? && HandlerInvoked !in r.steps && !HasDelay(r.steps) && !HasFailureLog(r.steps)
    ensures decode(ctx.rawPayload).Null? ==> r.completion == Faulted(DeserializeFailure)
    ensures decode(ctx.rawPayload).Throws? ==> r.completion == Faulted(decode(ctx.rawPayload).error)
    // the handler runs exactly when the payload decodes, and then first
    ensures decode(ctx.rawPayload).Value? <==> |r.steps| > 0 && r.steps[0] == HandlerInvoked
    // normal completion exactly when the handler returned, with no delay and no failure log
    ensures r.completion == RanToCompletion <==>
              decode(ctx.rawPayload).Value? && handler(decode(ctx.rawPayload).value, ctx).Returned?
    ensures r.completion == RanToCompletion ==> !HasDelay(r.steps) && !HasFailureLog(r.steps)
    // a handler failure is always rethrown (or the delay is cancelled), never swallowed
    ensures decode(ctx.rawPayload).Value? && handler(decode(ctx.rawPayload).value, ctx).Threw? ==>
              r.completion != RanToCompletion &&
              (r.completion.Faulted? ==> r.completion.error == handler(decode(ctx.rawPayload).value, ctx).error)
    // at most one delay, of one second, and only below the attempt limit
    ensures DelayCount(r.steps) <= 1
    ensures HasDelay(r.steps) <==>
              decode(ctx.rawPayload).Value? && handler(decode(ctx.rawPayload).value, ctx).Threw? &&
              ctx.deliveryAttempt < ctx.maxDeliveryAttempts
    ensures forall i :: 0 <= i < |r.steps| && r.steps[i].Delayed? ==> r.steps[i].seconds == RetryDelaySeconds
    ensures r.completion == Canceled <==> cancelledDuringDelay && HasDelay(r.steps)
    // the terminal path logs at error level and rethrows at once
    ensures LoggedError(ctx.deliveryAttempt) in r.steps <==>
              decode(ctx.rawPayload).Value? && handler(decode(ctx.rawPayload).value, ctx).Threw? &&
              ctx.deliveryAttempt >= ctx.maxDeliveryAttempts
    ensures LoggedError(ctx.deliveryAttempt) in r.steps ==> r.steps == [HandlerInvoked, LoggedError(ctx.deliveryAttempt)]
    // the retry path logs at warning level, then waits, in that order, and nothing else happens
    ensures LoggedWarning(ctx.deliveryAttempt) in r.steps <==>
              decode(ctx.rawPayload).Value? && handler(decode(ctx.rawPayload).value, ctx).Threw? &&
              ctx.deliveryAttempt < ctx.maxDeliveryAttempts
    ensures HasDelay(r.steps) <==>
              r.steps == [HandlerInvoked, LoggedWarning(ctx.deliveryAttempt), Delayed(RetryDelaySeconds)]
    // a handler failure is logged exactly once; a payload that does not decode is not logged here
    ensures FailureLogCount(r.steps) ==
              if decode(ctx.rawPayload).Value? && handler(decode(ctx.rawPayload).value, ctx).Threw? then 1 else 0
  {
    match decode(ctx.rawPayload)
    case Null => Run(Faulted(DeserializeFailure), [])
    case Throws(e) => Run(Faulted(e), [])
    case Value(message) =>
      var result := handler(message, ctx);
      match Decide(result, ctx.deliveryAttempt, ctx.maxDeliveryAttempts)
      case Completed => Run(RanToCompletion, [HandlerInvoked])
      case Terminal => Run(Faulted(result.error), [HandlerInvoked, LoggedError(ctx.deliveryAttempt)])
      case RetryAfterDelay =>
        var steps := [HandlerInvoked, LoggedWarning(ctx.deliveryAttempt), Delayed(RetryDelaySeconds)];
        assert steps[2].Delayed?;
        if cancelledDuringDelay then Run(Canceled, steps) else Run(Faulted(result.error), steps)
  }

  /** A JsonConsumer<T> instance: its decoder, its ConsumeMessageAsync, and the MessageContext property. */
  class JsonConsumer<T> {
    const decode: seq<byte> -> Decoded<T>
    const handler: (T, MessageContext) -> HandlerResult
    var messageContext: Option<MessageContext>

    constructor (decode: seq<byte> -> Decoded<T>, handler: (T, MessageContext) -> HandlerResult)
      ensures this.decode == decode && this.handler == handler
      ensures messageContext == None
    {
      this.decode := decode;
      this.handler := handler;
      messageContext := None;
    }

    /** ConsumeAsync: the property is set first, whatever the outcome. */
    method ConsumeAsync(ctx: MessageContext, cancelledDuringDelay: bool) returns (r: Run)
      modifies this
      ensures messageContext == Some(ctx)
      ensures r == Consume(ctx, decode, handler, cancelledDuringDelay)
    {
      messageContext := Some(ctx);
      var decoded := decode(ctx.rawPayload);
      if decoded.Null? {
        return Run(Faulted(DeserializeFailure), []);
      } else if decoded.Throws? {
        return Run(Faulted(decoded.error), []);
      }
      var steps := [HandlerInvoked];
      var result := handler(decoded.value, ctx);
      if result.Returned? {
        return Run(RanToCompletion, steps);
      }
      if ctx.deliveryAttempt >= ctx.maxDeliveryAttempts {
        steps := steps + [LoggedError(ctx.deliveryAttempt)];
        return Run(Faulted(result.error), steps);
      }
      steps := steps + [LoggedWarning(ctx.deliveryAttempt)];
      steps := steps + [Delayed(RetryDelaySeconds)];
      if cancelledDuringDelay {
        return Run(Canceled, steps);
      }
      return Run(Faulted(result.error), steps);
    }
  }

  /** The context of the same message delivered again with another attempt count. */
  function WithAttempt(ctx: MessageContext, attempt: int): MessageContext
  {
    ctx.(deliveryAttempt := attempt)
  }

  /** A payload that does not decode gives the same run at every delivery attempt: it uses no retry. */
  lemma DecodeFailureIgnoresAttempts<T>(ctx: MessageContext, a: int, b: int, decode: seq<byte> -> Decoded<T>,
                                        handler: (T, MessageContext) -> HandlerResult, cancelled: bool)
    requires !decode(ctx.rawPayload).Value?
    ensures Consume(WithAttempt(ctx, a), decode, handler, cancelled) == Consume(WithAttempt(ctx, b), decode, handler, cancelled)
  {
  }

  /**
   * The runs of broker redeliveries of one message, with attempt counts first, first + 1, ...,
   * first + count - 1 (the delay is never cancelled).
   */
  function Redeliveries<T>(ctx: MessageContext, first: int, count: nat, decode: seq<byte> -> Decoded<T>,
                           handler: (T, MessageContext) -> HandlerResult): (runs: seq<Run>)
    ensures |runs| == count
    ensures forall i :: 0 <= i < count ==> runs[i] == Consume(WithAttempt(ctx, first + i), decode, handler, false)
    decreases count
  {
    if count == 0 then []
    else [Consume(WithAttempt(ctx, first), decode, handler, false)] + Redeliveries(ctx, first + 1, count - 1, decode, handler)
  }

  /** The number of runs that waited. */
  function DelayedRuns(runs: seq<Run>): nat
  {
    if runs == [] then 0 else (if HasDelay(runs[0].steps) then 1 else 0) + DelayedRuns(runs[1..])
  }

  /**
   * A handler that fails on every attempt: deliveries 1 .. max - 1 each wait once before failing,
   * so exactly max - 1 delays happen before the terminal delivery, which fails without a delay.
   */
  lemma AlwaysFailingHandlerDelays<T>(ctx: MessageContext, first: int, decode: seq<byte> -> Decoded<T>,
                                      handler: (T, MessageContext) -> HandlerResult)
    requires decode(ctx.rawPayload).Value?
    requires forall c: MessageContext :: handler(decode(ctx.rawPayload).value, c).Threw?
    requires first <= ctx.maxDeliveryAttempts
    ensures var runs := Redeliveries(ctx, first, ctx.maxDeliveryAttempts - first + 1, decode, handler);
            && DelayedRuns(runs) == ctx.maxDeliveryAttempts - first
            && !HasDelay(runs[|runs| - 1].steps)
            && runs[|runs| - 1].completion.Faulted?
  {
    var n := ctx.maxDeliveryAttempts - first + 1;
    var runs := Redeliveries(ctx, first, n, decode, handler);
    FailingRuns(ctx, first, n, decode, handler);
    DelayedRunsCount(runs, n - 1);
  }

  /** Every redelivery of a message whose handler always throws waits exactly when it is below the limit, and faults. */
  lemma FailingRuns<T>(ctx: MessageContext, first: int, n: nat, decode: seq<byte> -> Decoded<T>,
                       handler: (T, MessageContext) -> HandlerResult)
    requires decode(ctx.rawPayload).Value?
    requires forall c: MessageContext :: handler(decode(ctx.rawPayload).value, c).Threw?
    ensures var runs := Redeliveries(ctx, first, n, decode, handler);
            forall i :: 0 <= i < n ==> (HasDelay(runs[i].steps) <==> first + i < ctx.maxDeliveryAttempts) && runs[i].completion.Faulted?
  {
    var runs := Redeliveries(ctx, first, n, decode, handler);
    forall i | 0 <= i < n
      ensures (HasDelay(runs[i].steps) <==> first + i < ctx.maxDeliveryAttempts) && runs[i].completion.Faulted?
    {
      FailingAttempt(ctx, first + i, decode, handler);
    }
  }

  /** One delivery of a message whose handler always throws waits exactly when the attempt is below the limit, and faults. */
  lemma FailingAttempt<T>(ctx: MessageContext, attempt: int, decode: seq<byte> -> Decoded<T>,
                          handler: (T, MessageContext) -> HandlerResult)
    requires decode(ctx.rawPayload).Value?
    requires forall c: MessageContext :: handler(decode(ctx.rawPayload).value, c).Threw?
    ensures var run := Consume(WithAttempt(ctx, attempt), decode, handler, false);
            (HasDelay(run.steps) <==> attempt < ctx.maxDeliveryAttempts) && run.completion.Faulted?
  {
    var c := WithAttempt(ctx, attempt);
    assert c.rawPayload == ctx.rawPayload && c.deliveryAttempt == attempt && c.maxDeliveryAttempts == ctx.maxDeliveryAttempts;
    assert handler(decode(c.rawPayload).value, c).Threw?;
  }

  /** A sequence of runs in which exactly the first k waited has k delayed runs. */
  lemma {:induction false} DelayedRunsCount(runs: seq<Run>, k: nat)
    requires k <= |runs|
    requires forall i :: 0 <= i < |runs| ==> (HasDelay(runs[i].steps) <==> i < k)
    ensures DelayedRuns(runs) == k
    decreases |runs|
  {
    if runs != [] {
      assert forall i :: 0 <= i < |runs| - 1 ==> runs[1..][i] == runs[i + 1];
      DelayedRunsCount(runs[1..], if k == 0 then 0 else k - 1);
    }
  }

  /** The message shape of the sample consumer. */
  datatype MyMessage = MyMessage(batch: int, message: int)

  /**
   * The sample handler: it fails on every fifth message. C# `%` truncates, but whether the
   * remainder is zero does not depend on the rounding, so Dafny's `%` gives the same test.
   */
  function SampleHandler(m: MyMessage, ctx: MessageContext): (r: HandlerResult)
    ensures r.Threw? <==> m.message % 5 == 0
  {
    if m.message % 5 == 0 then Threw(Exception("Exception", "Simulated exception processing message.")) else Returned
  }

  /** The "orders" scenario: max 3 attempts, a handler that always throws. */
  lemma OrdersScenario(ctx: MessageContext, decode: seq<byte> -> Decoded<MyMessage>)
    requires ctx.maxDeliveryAttempts == 3
    requires decode(ctx.rawPayload) == Value(MyMessage(1, 5))
    ensures HasDelay(Consume(WithAttempt(ctx, 1), decode, SampleHandler, false).steps)
    ensures HasDelay(Consume(WithAttempt(ctx, 2), decode, SampleHandler, false).steps)
    ensures !HasDelay(Consume(WithAttempt(ctx, 3), decode, SampleHandler, false).steps)
    ensures Consume(WithAttempt(ctx, 3), decode, SampleHandler, false).completion.Faulted?
  {
    assert WithAttempt(ctx, 1).rawPayload == ctx.rawPayload;
    assert WithAttempt(ctx, 2).rawPayload == ctx.rawPayload;
    assert WithAttempt(ctx, 3).rawPayload == ctx.rawPayload;
  }

  /** A message that the sample handler accepts completes on the first attempt. */
  lemma SampleHandlerCompletes(ctx: MessageContext, decode: seq<byte> -> Decoded<MyMessage>)
    requires decode(ctx.rawPayload) == Value(MyMessage(1, 4))
    ensures Consume(ctx, decode, SampleHandler, false) == Run(RanToCompletion, [HandlerInvoked])
  {
  }
}
