/**
 * ServiceBusConsumersHostedService: one processor per queue entry, then one per subscription
 * entry, each with explicit completion; the per-message and error callbacks; and StopAsync.
 * The broker is an event log the service appends to.
 */
module Hosting {
  import opened Wrappers
  import opened Messages
  import opened Settings
  import Consumers

  /** The entity a processor receives from. */
  datatype Entity = QueueEntity(queueName: string) | SubscriptionEntity(topicName: string, subscriptionName: string)

  /** ServiceBusProcessorOptions as the service sets them. */
  datatype ProcessorOptions = ProcessorOptions(maxConcurrentCalls: int, autoCompleteMessages: bool)

  /** What the message callback of a processor captures. */
  datatype Binding = Binding(queueOrTopicName: string, subscriptionName: Option<string>, maxDeliveryAttempts: int,
                             consumerType: ConsumerType)

  /** A ServiceBusProcessor created by the service, with its callbacks. */
  datatype Processor = Processor(entity: Entity, options: ProcessorOptions, binding: Binding)

  /** A ServiceBusReceivedMessage. */
  datatype ReceivedMessage = ReceivedMessage(body: seq<byte>, messageId: string, correlationId: string,
                                             deliveryCount: int, applicationProperties: map<string, PropertyValue>)

  /** Where a processor error comes from (ServiceBusErrorSource). */
  datatype ErrorSource = ProcessMessageCallback | OtherSource(name: string)

  /** The calls the service makes on the broker, in order. */
  datatype BrokerEvent =
    | ProcessorCreated(processor: Processor)
    | ProcessingStarted(processor: Processor)
    | ProcessingStopped(processor: Processor)
    | ProcessorDisposed(processor: Processor)
    | MessageCompleted(messageId: string)
    | ErrorLogged(queueOrTopicName: string, source: ErrorSource)

  /** The application property that carries the producer's trace id. */
  const DiagnosticIdProperty: string := "Diagnostic-Id"

  /** The processor ProcessQueuesAsync creates for one queue-map entry. */
  function QueueProcessor(queueName: string, details: QueueDetails): (p: Processor)
    ensures p.entity == QueueEntity(queueName)
    ensures p.options.maxConcurrentCalls == details.maxCompetingConsumers && !p.options.autoCompleteMessages
    ensures p.binding == Binding(queueName, None, details.maxDeliveryAttempts, details.consumerType)
  {
    Processor(QueueEntity(queueName), ProcessorOptions(details.maxCompetingConsumers, false),
              Binding(queueName, None, details.maxDeliveryAttempts, details.consumerType))
  }

  /** The processor ProcessSubscriptionsAsync creates for one subscription-map entry. */
  function SubscriptionProcessor(key: SubscriptionKey, details: SubscriptionDetails): (p: Processor)
    ensures p.entity == SubscriptionEntity(key.topicName, key.subscriptionName)
    ensures p.options.maxConcurrentCalls == details.maxCompetingConsumers && !p.options.autoCompleteMessages
    ensures p.binding == Binding(key.topicName, Some(key.subscriptionName), details.maxDeliveryAttempts, details.consumerType)
  {
    Processor(SubscriptionEntity(key.topicName, key.subscriptionName), ProcessorOptions(details.maxCompetingConsumers, false),
              Binding(key.topicName, Some(key.subscriptionName), details.maxDeliveryAttempts, details.consumerType))
  }

  /** The processors for the queue map, in enumeration order. */
  function QueueProcessors(queueMap: seq<(string, QueueDetails)>): (ps: seq<Processor>)
    ensures |ps| == |queueMap|
    ensures forall i :: 0 <= i < |ps| ==> ps[i] == QueueProcessor(queueMap[i].0, queueMap[i].1)
    decreases |queueMap|
  {
    if queueMap == [] then [] else [QueueProcessor(queueMap[0].0, queueMap[0].1)] + QueueProcessors(queueMap[1..])
  }

  /** The processors for the subscription map, in enumeration order. */
  function SubscriptionProcessors(subscriptionMap: seq<(SubscriptionKey, SubscriptionDetails)>): (ps: seq<Processor>)
    ensures |ps| == |subscriptionMap|
    ensures forall i :: 0 <= i < |ps| ==> ps[i] == SubscriptionProcessor(subscriptionMap[i].0, subscriptionMap[i].1)
    decreases |subscriptionMap|
  {
    if subscriptionMap == [] then []
    else [SubscriptionProcessor(subscriptionMap[0].0, subscriptionMap[0].1)] + SubscriptionProcessors(subscriptionMap[1..])
  }

  /** The number of processors, from the front, whose start succeeds. */
  function StartedPrefix(ps: seq<Processor>, start: Processor -> Option<Exception>): (k: nat)
    ensures k <= |ps|
    ensures k < |ps| ==> start(ps[k]).Some?
    decreases |ps|
  {
    if ps == [] || start(ps[0]).Some? then 0 else 1 + StartedPrefix(ps[1..], start)
  }

  /** The broker calls for creating and starting each processor in turn. */
  function StartLog(ps: seq<Processor>): (log: seq<BrokerEvent>)
    ensures |log| == 2 * |ps|
    decreases |ps|
  {
    if ps == [] then [] else StartLog(ps[..|ps| - 1]) + [ProcessorCreated(ps[|ps| - 1]), ProcessingStarted(ps[|ps| - 1])]
  }

  /** The broker calls for stopping and then disposing each processor in turn. */
  function StopLog(ps: seq<Processor>): (log: seq<BrokerEvent>)
    ensures |log| == 2 * |ps|
    decreases |ps|
  {
    if ps == [] then [] else StopLog(ps[..|ps| - 1]) + [ProcessingStopped(ps[|ps| - 1]), ProcessorDisposed(ps[|ps| - 1])]
  }

  /** Each processor is stopped, and then disposed, before the next one is touched. */
  lemma {:induction false} StopLogOrder(ps: seq<Processor>, i: nat)
    requires i < |ps|
    ensures StopLog(ps)[2 * i] == ProcessingStopped(ps[i])
    ensures StopLog(ps)[2 * i + 1] == ProcessorDisposed(ps[i])
    decreases |ps|
  {
    if i < |ps| - 1 {
      StopLogOrder(ps[..|ps| - 1], i);
    }
  }

  /** Each processor is created and then started before the next one is created. */
  lemma {:induction false} StartLogOrder(ps: seq<Processor>, i: nat)
    requires i < |ps|
    ensures StartLog(ps)[2 * i] == ProcessorCreated(ps[i])
    ensures StartLog(ps)[2 * i + 1] == ProcessingStarted(ps[i])
    decreases |ps|
  {
    if i < |ps| - 1 {
      StartLogOrder(ps[..|ps| - 1], i);
    }
  }

  lemma {:induction false} StartLogAppend(a: seq<Processor>, b: seq<Processor>)
    ensures StartLog(a + b) == StartLog(a) + StartLog(b)
    decreases |b|
  {
    if b != [] {
      assert (a + b)[..|a + b| - 1] == a + b[..|b| - 1];
      StartLogAppend(a, b[..|b| - 1]);
    } else {
      assert a + b == a;
    }
  }

  lemma {:induction false} StartedPrefixAppend(a: seq<Processor>, b: seq<Processor>, start: Processor -> Option<Exception>)
    ensures StartedPrefix(a + b, start) == if StartedPrefix(a, start) < |a| then StartedPrefix(a, start) else |a| + StartedPrefix(b, start)
    decreases |a|
  {
    if a == [] {
      assert a + b == b;
    } else {
      assert (a + b)[0] == a[0] && (a + b)[1..] == a[1..] + b;
      if start(a[0]).None? {
        StartedPrefixAppend(a[1..], b, start);
      }
    }
  }

  /**
   * The effect of starting `plan` in order from processor list `p0` and log `l0`: if every start
   * succeeds, all processors are recorded and each was created and started; otherwise the call
   * ends with the first start's exception, the failing processor is recorded, and its creation
   * is the last recorded broker call (the failed start itself is not recorded).
   */
  ghost predicate StartEffect(plan: seq<Processor>, start: Processor -> Option<Exception>, p0: seq<Processor>, l0: seq<BrokerEvent>,
                              r: Outcome<Exception>, p1: seq<Processor>, l1: seq<BrokerEvent>)
  {
    var k := StartedPrefix(plan, start);
    && (k == |plan| ==> r == Pass && p1 == p0 + plan && l1 == l0 + StartLog(plan))
    && (k < |plan| ==> r == Fail(start(plan[k]).value) && p1 == p0 + plan[..k + 1] && l1 == l0 + StartLog(plan[..k]) + [ProcessorCreated(plan[k])])
  }

  /** Starting `a` and, if that succeeded, `b` is starting `a + b`. */
  lemma StartEffectSequential(a: seq<Processor>, b: seq<Processor>, start: Processor -> Option<Exception>,
                              p0: seq<Processor>, l0: seq<BrokerEvent>, r1: Outcome<Exception>, p1: seq<Processor>, l1: seq<BrokerEvent>,
                              r2: Outcome<Exception>, p2: seq<Processor>, l2: seq<BrokerEvent>)
    requires StartEffect(a, start, p0, l0, r1, p1, l1)
    requires r1.Fail? ==> r2 == r1 && p2 == p1 && l2 == l1
    requires r1.Pass? ==> StartEffect(b, start, p1, l1, r2, p2, l2)
    ensures StartEffect(a + b, start, p0, l0, r2, p2, l2)
  {
    StartedPrefixAppend(a, b, start);
    var ka := StartedPrefix(a, start);
    if ka < |a| {
      StartEffectFirstFails(a, b, start, p0, l0, r1, p1, l1);
    } else {
      StartLogAppend(a, b);
      var kb := StartedPrefix(b, start);
      if kb < |b| {
        StartEffectSecondFails(a, b, start, p0, l0, r2, p2, l2);
      } else {
        assert p2 == p0 + (a + b);
      }
    }
  }

  lemma StartEffectFirstFails(a: seq<Processor>, b: seq<Processor>, start: Processor -> Option<Exception>,
                              p0: seq<Processor>, l0: seq<BrokerEvent>, r1: Outcome<Exception>, p1: seq<Processor>, l1: seq<BrokerEvent>)
    requires StartedPrefix(a, start) < |a|
    requires StartEffect(a, start, p0, l0, r1, p1, l1)
    ensures StartEffect(a + b, start, p0, l0, r1, p1, l1)
  {
    StartedPrefixAppend(a, b, start);
    var ka := StartedPrefix(a, start);
    var plan := a + b;
    assert plan[..ka + 1] == a[..ka + 1];
    assert plan[..ka] == a[..ka];
    assert plan[ka] == a[ka];
  }

  lemma StartEffectSecondFails(a: seq<Processor>, b: seq<Processor>, start: Processor -> Option<Exception>,
                               p0: seq<Processor>, l0: seq<BrokerEvent>, r2: Outcome<Exception>, p2: seq<Processor>, l2: seq<BrokerEvent>)
    requires StartedPrefix(a, start) == |a|
    requires StartedPrefix(b, start) < |b|
    requires StartEffect(b, start, p0 + a, l0 + StartLog(a), r2, p2, l2)
    ensures StartEffect(a + b, start, p0, l0, r2, p2, l2)
  {
    var kb := StartedPrefix(b, start);
    StartedPrefixAppend(a, b, start);
    FailedPlanProcessors(a, b, kb, p0);
    FailedPlanLog(a, b, kb, l0);
  }

  lemma FailedPlanProcessors(a: seq<Processor>, b: seq<Processor>, kb: nat, p0: seq<Processor>)
    requires kb < |b|
    ensures p0 + (a + b)[..|a| + kb + 1] == (p0 + a) + b[..kb + 1]
  {
    assert (a + b)[..|a| + kb + 1] == a + b[..kb + 1];
  }

  lemma FailedPlanLog(a: seq<Processor>, b: seq<Processor>, kb: nat, l0: seq<BrokerEvent>)
    requires kb < |b|
    ensures l0 + StartLog((a + b)[..|a| + kb]) + [ProcessorCreated((a + b)[|a| + kb])]
         == (l0 + StartLog(a)) + StartLog(b[..kb]) + [ProcessorCreated(b[kb])]
  {
    PrefixOfAppend(a, b, kb);
    StartLogAppend(a, b[..kb]);
    AppendAssociates(l0, StartLog(a), StartLog(b[..kb]));
  }

  lemma PrefixOfAppend(a: seq<Processor>, b: seq<Processor>, kb: nat)
    requires kb < |b|
    ensures (a + b)[..|a| + kb] == a + b[..kb] && (a + b)[|a| + kb] == b[kb]
  {
  }

  lemma AppendAssociates(x: seq<BrokerEvent>, y: seq<BrokerEvent>, z: seq<BrokerEvent>)
    ensures x + (y + z) == (x + y) + z
  {
  }

  /** The MessageContext built for one delivery. */
  function BuildMessageContext(message: ReceivedMessage, binding: Binding): (ctx: MessageContext)
    ensures ctx.queueOrTopicName == binding.queueOrTopicName && ctx.subscriptionName == binding.subscriptionName
    ensures ctx.rawPayload == message.body && ctx.messageId == message.messageId && ctx.correlationId == message.correlationId
    ensures ctx.deliveryAttempt == message.deliveryCount && ctx.maxDeliveryAttempts == binding.maxDeliveryAttempts
    // the trace id is copied exactly when the property is present and holds a string
    ensures ctx.diagnosticId.Some? <==>
              DiagnosticIdProperty in message.applicationProperties && message.applicationProperties[DiagnosticIdProperty].StringValue?
    ensures ctx.diagnosticId.Some? ==> ctx.diagnosticId.value == message.applicationProperties[DiagnosticIdProperty].s
  {
    var ctx := MessageContext(binding.queueOrTopicName, binding.subscriptionName, message.body, message.messageId,
                              message.correlationId, message.deliveryCount, binding.maxDeliveryAttempts, None);
    if DiagnosticIdProperty in message.applicationProperties && message.applicationProperties[DiagnosticIdProperty].StringValue?
    then ctx.(diagnosticId := Some(message.applicationProperties[DiagnosticIdProperty].s))
    else ctx
  }

  /** The hosted service over the registries it resolves and the broker's event log. */
  class ServiceBusConsumersHostedService {
    /** The queue map, in enumeration order. */
    const queueMap: seq<(string, QueueDetails)>
    /** The subscription map, in enumeration order. */
    const subscriptionMap: seq<(SubscriptionKey, SubscriptionDetails)>
    /** The consumer a fresh scope resolves for a type, as the way its ConsumeAsync ends for a context. */
    const consumers: ConsumerType -> MessageContext -> Consumers.Completion
    var processors: seq<Processor>
    var log: seq<BrokerEvent>

    constructor (queueMap: seq<(string, QueueDetails)>, subscriptionMap: seq<(SubscriptionKey, SubscriptionDetails)>,
                 consumers: ConsumerType -> MessageContext -> Consumers.Completion)
      ensures this.queueMap == queueMap && this.subscriptionMap == subscriptionMap && this.consumers == consumers
      ensures processors == [] && log == []
    {
      this.queueMap := queueMap;
      this.subscriptionMap := subscriptionMap;
      this.consumers := consumers;
      processors := [];
      log := [];
    }

    /**
     * Create, record and start the given processors in order, stopping at the first start that
     * throws (`start` says how StartProcessingAsync ends). A processor is recorded before its start.
     */
    method StartEach(plan: seq<Processor>, start: Processor -> Option<Exception>) returns (r: Outcome<Exception>)
      modifies this
      ensures StartEffect(plan, start, old(processors), old(log), r, processors, log)
    {
      var i := 0;
      while i < |plan|
        invariant 0 <= i <= |plan|
        invariant forall j :: 0 <= j < i ==> start(plan[j]).None?
        invariant processors == old(processors) + plan[..i]
        invariant log == old(log) + StartLog(plan[..i])
      {
        var p := plan[i];
        log := log + [ProcessorCreated(p)];
        processors := processors + [p];
        var started := start(p);
        if started.Some? {
          StartedPrefixAt(plan, start, i);
          return Fail(started.value);
        }
        log := log + [ProcessingStarted(p)];
        assert plan[..i + 1][..i] == plan[..i];
        i := i + 1;
      }
      StartedPrefixAt(plan, start, |plan|);
      assert plan[..i] == plan;
      return Pass;
    }

    method ProcessQueuesAsync(start: Processor -> Option<Exception>) returns (r: Outcome<Exception>)
      modifies this
      ensures var plan := QueueProcessors(queueMap);
              StartEffect(plan, start, old(processors), old(log), r, processors, log)
    {
      r := StartEach(QueueProcessors(queueMap), start);
    }

    method ProcessSubscriptionsAsync(start: Processor -> Option<Exception>) returns (r: Outcome<Exception>)
      modifies this
      ensures var plan := SubscriptionProcessors(subscriptionMap);
              StartEffect(plan, start, old(processors), old(log), r, processors, log)
    {
      r := StartEach(SubscriptionProcessors(subscriptionMap), start);
    }

    /** StartAsync: every queue processor, then every subscription processor. */
    method StartAsync(start: Processor -> Option<Exception>) returns (r: Outcome<Exception>)
      modifies this
      ensures var plan := QueueProcessors(queueMap) + SubscriptionProcessors(subscriptionMap);
              StartEffect(plan, start, old(processors), old(log), r, processors, log)
    {
      ghost var processors0, log0 := processors, log;
      r := ProcessQueuesAsync(start);
      if r.Fail? {
        StartEffectSequential(QueueProcessors(queueMap), SubscriptionProcessors(subscriptionMap), start,
                              processors0, log0, r, processors, log, r, processors, log);
        return;
      }
      ghost var processors1, log1, r1 := processors, log, r;
      r := ProcessSubscriptionsAsync(start);
      StartEffectSequential(QueueProcessors(queueMap), SubscriptionProcessors(subscriptionMap), start,
                            processors0, log0, r1, processors1, log1, r, processors, log);
    }

    /**
     * The message callback: build the context, run the consumer, and complete the message only
     * when the consumer returned normally.
     */
    method ProcessMessageAsync(message: ReceivedMessage, binding: Binding) returns (c: Consumers.Completion)
      modifies this`log
      ensures c == consumers(binding.consumerType)(BuildMessageContext(message, binding))
      ensures log == old(log) + (if c.RanToCompletion? then [MessageCompleted(message.messageId)] else [])
    {
      var ctx := MessageContext(binding.queueOrTopicName, binding.subscriptionName, message.body, message.messageId,
                                message.correlationId, message.deliveryCount, binding.maxDeliveryAttempts, None);
      if DiagnosticIdProperty in message.applicationProperties {
        var value := message.applicationProperties[DiagnosticIdProperty];
        if value.StringValue? {
          ctx := ctx.(diagnosticId := Some(value.s));
        }
      }
      var consumer := consumers(binding.consumerType);
      c := consumer(ctx);
      if c.RanToCompletion? {
        log := log + [MessageCompleted(message.messageId)];
      }
    }

    /**
     * The error callback of the processor for `queueOrTopicName`: an error is logged unless it comes
     * from the message callback, whose failures the consumer has already dealt with.
     */
    method ProcessErrorAsync(source: ErrorSource, queueOrTopicName: string)
      modifies this`log
      ensures log == old(log) + (if source != ProcessMessageCallback then [ErrorLogged(queueOrTopicName, source)] else [])
    {
      if source != ProcessMessageCallback {
        log := log + [ErrorLogged(queueOrTopicName, source)];
      }
    }

    /**
     * One delivery as the processor drives it: the message callback runs, and when it does not end
     * normally the processor passes its exception to the error callback with the ProcessMessageCallback
     * source. The filter drops it, so a failed delivery adds nothing to the log.
     */
    method DeliverAsync(message: ReceivedMessage, binding: Binding) returns (c: Consumers.Completion)
      modifies this`log
      ensures c == consumers(binding.consumerType)(BuildMessageContext(message, binding))
      ensures log == old(log) + (if c.RanToCompletion? then [MessageCompleted(message.messageId)] else [])
      ensures forall e :: e in log[|old(log)|..] ==> !e.ErrorLogged?
    {
      c := ProcessMessageAsync(message, binding);
      if !c.RanToCompletion? {
        ProcessErrorAsync(ProcessMessageCallback, binding.queueOrTopicName);
      }
    }

    /** StopAsync: stop and then dispose each processor, in the order they were added. */
    method StopAsync()
      modifies this`log
      ensures log == old(log) + StopLog(processors)
    {
      var i := 0;
      while i < |processors|
        invariant 0 <= i <= |processors|
        invariant log == old(log) + StopLog(processors[..i])
      {
        var p := processors[i];
        log := log + [ProcessingStopped(p)];
        log := log + [ProcessorDisposed(p)];
        assert processors[..i + 1][..i] == processors[..i];
        i := i + 1;
      }
      assert processors[..i] == processors;
    }
  }

  lemma {:induction false} StartedPrefixAt(ps: seq<Processor>, start: Processor -> Option<Exception>, k: nat)
    requires k <= |ps|
    requires forall j :: 0 <= j < k ==> start(ps[j]).None?
    requires k < |ps| ==> start(ps[k]).Some?
    ensures StartedPrefix(ps, start) == k
    decreases |ps|
  {
    if k > 0 {
      StartedPrefixAt(ps[1..], start, k - 1);
    }
  }

  /** In the start plan every queue processor precedes every subscription processor. */
  lemma QueuesBeforeSubscriptions(queueMap: seq<(string, QueueDetails)>, subscriptionMap: seq<(SubscriptionKey, SubscriptionDetails)>)
    ensures var plan := QueueProcessors(queueMap) + SubscriptionProcessors(subscriptionMap);
            && |plan| == |queueMap| + |subscriptionMap|
            && (forall i :: 0 <= i < |queueMap| ==> plan[i].entity.QueueEntity? && plan[i].binding.subscriptionName.None?)
            && (forall i :: |queueMap| <= i < |plan| ==> plan[i].entity.SubscriptionEntity? && plan[i].binding.subscriptionName.Some?)
  {
  }

  /**
   * For a JsonConsumer, a message is completed exactly when its payload decodes and the handler
   * returns; a decode failure or a handler failure at any attempt leaves it uncompleted.
   */
  lemma CompletionRequiresHandlerSuccess<T>(message: ReceivedMessage, binding: Binding, decode: seq<byte> -> Consumers.Decoded<T>,
                                            handler: (T, MessageContext) -> Consumers.HandlerResult, cancelled: bool)
    ensures var ctx := BuildMessageContext(message, binding);
            Consumers.Consume(ctx, decode, handler, cancelled).completion.RanToCompletion? <==>
              decode(message.body).Value? && handler(decode(message.body).value, ctx).Returned?
  {
  }

  /**
   * For a JsonConsumer, the consumer's own log entries are the only record of a failed delivery:
   * a handler failure is logged exactly once (error or warning), while a payload that does not
   * decode faults the delivery without the handler running and without any log entry.
   */
  lemma FailedDeliveryLogging<T>(message: ReceivedMessage, binding: Binding, decode: seq<byte> -> Consumers.Decoded<T>,
                                 handler: (T, MessageContext) -> Consumers.HandlerResult, cancelled: bool)
    ensures var ctx := BuildMessageContext(message, binding);
            var run := Consumers.Consume(ctx, decode, handler, cancelled);
            && (!decode(message.body).Value? ==>
                  run.completion.Faulted? && Consumers.HandlerInvoked !in run.steps && Consumers.FailureLogCount(run.steps) == 0)
            && (decode(message.body).Value? && handler(decode(message.body).value, ctx).Threw? ==>
                  !run.completion.RanToCompletion? && Consumers.FailureLogCount(run.steps) == 1)
  {
  }
}
