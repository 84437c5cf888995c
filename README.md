# Edgamat.Messaging in Dafny

Edgamat.Messaging is a C# layer over Azure Service Bus. This project models its core and proves properties of that model.

- **Consumers** (`JsonConsumer<T>`) decode a JSON payload and run the application handler. When the handler fails, the consumer decides between an immediate rethrow and a one-second retry delay followed by a rethrow. The broker then redelivers the message.
- **Publishers** (`JsonPublisher`, `ServiceBusSenderFactory`) keep one lazily created sender per destination. A sender whose creation failed is evicted. Every sender that was created is disposed exactly once.
- **The builder** (`AzureServiceBusBuilder`) registers consumers, publishers and the hosted service. It binds the configuration section and maps every enabled queue entry to its consumer type.
- **The hosted service** (`ServiceBusConsumersHostedService`) does three things:
  - On start, it creates and starts one processor per queue, then one per subscription.
  - For each delivery, it builds a `MessageContext`, runs the consumer, and completes the message only if the consumer returned normally.
  - On stop, it stops and then disposes its processors in the order they were added.
- **Telemetry processors** in the sample host: `AddAttributesProcessor` replaces configured attributes on log records. `AddSpanTagsProcessor` adds missing span tags and stops recording two kinds of noisy span.

Modules and files:

| file | module | models |
|---|---|---|
| `wrappers.dfy` | `Wrappers` | `Option`, `Result`, `Outcome` |
| `messages.dfy` | `Messages` | exceptions, property values, `MessageContext` |
| `settings.dfy` | `Settings` | configuration records and their defaults |
| `json_consumer.dfy` | `Consumers` | `JsonConsumer<T>` and the sample handler rule |
| `json_publisher.dfy` | `Publishing` | sender cache, `JsonPublisher`, `Json2Publisher` |
| `builder.dfy` | `Registration` | `AzureServiceBusBuilder` |
| `hosted_service.dfy` | `Hosting` | `ServiceBusConsumersHostedService` |
| `telemetry.dfy` | `Telemetry` | the two telemetry processors |

Two kinds of element are modelled as classes whose methods change fields under `modifies` clauses:
- objects the source updates in place: the consumer's `MessageContext` property, the sender dictionary, the builder's fields, the processor list, the log record and the span;
- logs of the broker calls.

Each method's `ensures` ties the new state to a specification function. The lemmas about that function carry the properties.

The model replaces foreign calls with parameters:
- **JSON decoding** is a function from bytes to value, null or exception.
- **JSON encoding** is a function to a string.
- **The handler** is a function from message and context to whether it returned or threw.
- **Sender creation** is an outcome passed in per call, and `StartProcessingAsync` is a function from processor to an optional exception. Processor creation is taken to succeed.
- **`Guid.NewGuid`** is a fresh-id parameter.
- **`SendMessageAsync`** is a result parameter.
- **Reflection** (`Type.GetType`, `IsAssignableFrom`) is a `TypeCatalog`: a partial map from names to types, and a set of consumer types.
- **`Environment.ProcessorCount`** is a constructor parameter.
- **The broker** is an append-only log of the calls made on it that succeed. A `StartProcessingAsync` call that throws is not recorded; it shows only in the outcome of the start.

Two points where the code does something other than one might expect:
- **A payload that does not decode** is not a terminal failure. In `JsonConsumer.cs:21` it throws before the `try`, so it bypasses the attempt check and the delay. However, `ProcessMessageAsync` then never completes the message, so the broker redelivers it. No library code logs this failure: the consumer logs only handler failures, and the processor's error callback drops every error from the message callback (`ServiceBusConsumersHostedService.cs:93`). `Consumers.Consume`, `Consumers.DecodeFailureIgnoresAttempts`, `Hosting.ServiceBusConsumersHostedService.DeliverAsync` and `Hosting.FailedDeliveryLogging` state this.
- **`MessageContext` fields.** `MessageContext.cs` declares only `QueueName`. The model uses the fields the hosted service assigns (`ServiceBusConsumersHostedService.cs:108-121`).

## Model

| member | source | states |
|---|---|---|
| Consumers.Decide | src/Edgamat.Messaging/JsonConsumer.cs:29-48 | the handler's outcome is completion exactly when it returned; a failure is terminal exactly when `DeliveryAttempt >= MaxDeliveryAttempts` (equality included) and is retried after a delay exactly when the attempt is below the limit |
| Consumers.DelayCount | src/Edgamat.Messaging/JsonConsumer.cs:40-45 | the number of delays is zero exactly when the run has no delay step |
| Consumers.Consume | src/Edgamat.Messaging/JsonConsumer.cs:17-50 | a null or throwing decode faults with the JSON exception (or the decoder's) before the handler, the attempt check or any delay; the handler runs exactly when the payload decodes, and first; the call completes normally exactly when the handler returned, then with no delay and no failure log; a handler failure is never swallowed: it ends with the same exception or, exactly when the delay happens and is cancelled, with cancellation; the error-level log appears exactly when the handler threw at or above the limit, and is then the last step; the warning-level log appears exactly when it threw below the limit; a delay happens exactly when the steps are handler, warning, then one one-second delay; exactly one failure log is written when the handler threw, and none otherwise |
| Consumers.FailureLogCount | src/Edgamat.Messaging/JsonConsumer.cs:31-37 | the number of error and warning steps of a run: zero exactly when the run has no failure log |
| Consumers.JsonConsumer.ConsumeAsync | src/Edgamat.Messaging/JsonConsumer.cs:17-52 | the `MessageContext` property holds the argument whatever the outcome, and the run is the one `Consume` specifies |
| Consumers.DecodeFailureIgnoresAttempts | src/Edgamat.Messaging/JsonConsumer.cs:21-23 | a payload that does not decode gives the same run at every delivery attempt, so it never reaches the retry logic |
| Consumers.Redeliveries | src/Edgamat.Messaging/JsonConsumer.cs:17-50 | `count` runs, the i-th being the consumer's run at delivery attempt `first + i` |
| Consumers.AlwaysFailingHandlerDelays | src/Edgamat.Messaging/JsonConsumer.cs:29-48 | a handler that always throws, delivered from attempt `first` up to the limit, waits once on every attempt below the limit and on no other; the last run has no delay and faults |
| Consumers.SampleHandler | samples/host/MyMessageConsumer.cs:22 | the sample consumer fails exactly when `Message % 5 == 0` |
| Consumers.OrdersScenario | samples/host/MyMessageConsumer.cs:22 | with three attempts and a message the sample handler rejects, attempts 1 and 2 wait and attempt 3 faults without waiting |
| Consumers.SampleHandlerCompletes | samples/host/MyMessageConsumer.cs:22 | a message the sample handler accepts completes at once with no other step |
| Publishing.GetOrCreate | src/Edgamat.Messaging/JsonPublisher.cs:89-109 | the creation runs exactly when no sender has been created for the name; a cached sender is returned and nothing changes; a new sender is cached and returned; a failed creation is rethrown and its entry evicted; other names are untouched; the sender returned sends to the requested name |
| Publishing.RunCalls | src/Edgamat.Messaging/JsonPublisher.cs:89-109 | one result per call in a sequence of `GetSender` calls |
| Publishing.CreatedAtMostOnce | src/Edgamat.Messaging/JsonPublisher.cs:91-97 | over any sequence of successful calls, each name's sender is created at most once, and not at all if it was already cached; once cached it stays cached |
| Publishing.SameSenderForName | src/Edgamat.Messaging/JsonPublisher.cs:91-102 | with successful creations, every call for the same name returns the same sender |
| Publishing.CachedSenderReturned | src/Edgamat.Messaging/JsonPublisher.cs:91-102 | a sender cached before the calls is what every call for its name returns |
| Publishing.FailureIsNotCached | src/Edgamat.Messaging/JsonPublisher.cs:103-108 | after a failed creation the next call for the name runs the factory again |
| Publishing.OccurrencesAppend | src/Edgamat.Messaging/JsonPublisher.cs:91-97 | occurrence counts add up over concatenated creation logs |
| Publishing.ServiceBusSenderFactory.GetSender | src/Edgamat.Messaging/JsonPublisher.cs:89-109 | the dictionary changes as `GetOrCreate` says; the creation count of the name rises by one only on a first successful creation, other counts are unchanged, and at most one creation per name is an invariant |
| Publishing.CreatedSenders | src/Edgamat.Messaging/JsonPublisher.cs:124-130 | the senders whose lazy value was created, every one of them and no other |
| Publishing.ServiceBusSenderFactory.DisposeCoreAsync | src/Edgamat.Messaging/JsonPublisher.cs:120-132 | when disposing, the senders disposed are exactly the created ones, each once, and lazies never created are skipped; otherwise nothing is disposed |
| Publishing.JsonPublisher.PublishAsync | src/Edgamat.Messaging/JsonPublisher.cs:24-52 | the sender comes from the shared cache protocol; on success one message, JSON-typed, with the fresh id and the encoded body, goes to the looked-up sender and the id is returned; a creation or send failure is returned as the error |
| Publishing.JsonPublisher.DisposeAsync | src/Edgamat.Messaging/JsonPublisher.cs:60-72 | as `DisposeCoreAsync`, for the publisher's own cache |
| Publishing.Json2Publisher.PublishAsync | src/Edgamat.Messaging/JsonPublisher.cs:176-190 | every call creates its own sender and disposes it before returning, whether or not the send succeeds |
| Registration.Bind | src/Edgamat.Messaging/Configuration/AzureServiceBusBuilder.cs:76-78 | the named section bound onto the defaults, one queue configuration per entry, or the defaults when the section is missing |
| Registration.RegisterEnabled | src/Edgamat.Messaging/Configuration/AzureServiceBusBuilder.cs:81-87 | Build's loop only appends registrations to the service collection, each a scoped consumer, and changes nothing when no entry is enabled |
| Registration.MapConsumer | src/Edgamat.Messaging/Configuration/AzureServiceBusBuilder.cs:114-127 | a type that is not a consumer is rejected, naming the type, before anything is registered; otherwise the type is registered as scoped, and the mapping succeeds exactly when the queue map accepts the name; a successful mapping stores exactly the given details |
| Registration.RegisterQueue | src/Edgamat.Messaging/Configuration/AzureServiceBusBuilder.cs:81-87 | an unloadable type name fails with the type and queue names and changes nothing; a loadable one is mapped with that entry's limits |
| Registration.Enabled | src/Edgamat.Messaging/Configuration/AzureServiceBusBuilder.cs:81 | exactly the enabled entries |
| Registration.QueueNames | src/Edgamat.Messaging/Configuration/AzureServiceBusBuilder.cs:101 | the queue name of each entry, in order |
| Registration.DisabledEntriesIgnored | src/Edgamat.Messaging/Configuration/AzureServiceBusBuilder.cs:81 | registering all entries is registering only the enabled ones |
| Registration.OnlyEnabledQueuesMapped | src/Edgamat.Messaging/Configuration/AzureServiceBusBuilder.cs:81-87 | every name the loop adds or changes is the queue name of an enabled entry |
| Registration.EnabledQueuesMappedOnSuccess | src/Edgamat.Messaging/Configuration/AzureServiceBusBuilder.cs:81-87 | after a successful loop every enabled queue is mapped; with a rejecting map, each is mapped to its entry's type and limits |
| Registration.RegisterKeepsNames | src/Edgamat.Messaging/Configuration/AzureServiceBusBuilder.cs:81-87 | the loop never removes a name, and with a rejecting map never changes one |
| Registration.TypeNotFoundNamesEntry | src/Edgamat.Messaging/Configuration/AzureServiceBusBuilder.cs:83-84 | a type-not-found error names an enabled entry whose type is not loadable |
| Registration.AzureServiceBusBuilder.WithConfiguration | src/Edgamat.Messaging/Configuration/AzureServiceBusBuilder.cs:23-31 | stores the configuration and the section name, "AzureServiceBus" by default, and returns the builder |
| Registration.AzureServiceBusBuilder.AddBusConsumersHostedService | src/Edgamat.Messaging/Configuration/AzureServiceBusBuilder.cs:33-38 | registers the hosted service and nothing else |
| Registration.AzureServiceBusBuilder.AddConsumer | src/Edgamat.Messaging/Configuration/AzureServiceBusBuilder.cs:40-45 | maps the consumer with the given limits, 1 competing consumer and 3 attempts by default; a call with the queue name alone binds to `AddConsumerForAllProcessors` instead |
| Registration.AzureServiceBusBuilder.AddConsumerForAllProcessors | src/Edgamat.Messaging/Configuration/AzureServiceBusBuilder.cs:47-50 | maps the consumer with one competing consumer per processor and 3 attempts |
| Registration.AzureServiceBusBuilder.AddPublisher | src/Edgamat.Messaging/Configuration/AzureServiceBusBuilder.cs:52-58 | registers `Json3Publisher` as the scoped publisher and nothing else |
| Registration.AzureServiceBusBuilder.AddKeyedPublisher | src/Edgamat.Messaging/Configuration/AzureServiceBusBuilder.cs:60-69 | registers a keyed singleton publisher for the destination and nothing else |
| Registration.AzureServiceBusBuilder.Build | src/Edgamat.Messaging/Configuration/AzureServiceBusBuilder.cs:71-112 | fails before any change when the configuration or section is unset; otherwise registers the settings, then maps the enabled queues in order, stopping at the first error, then registers the queue map and the Azure clients with the enabled queue names |
| Registration.AzureServiceBusBuilder.MapConsumerToQueue | src/Edgamat.Messaging/Configuration/AzureServiceBusBuilder.cs:114-127 | the builder's registry changes as `MapConsumer` says |
| Settings.NewQueueConfiguration | src/Edgamat.Messaging/Configuration/QueueConfiguration.cs:3-14 | a queue entry is enabled, allows 3 attempts and one competing consumer per processor unless configured |
| Settings.BindQueue | src/Edgamat.Messaging/Configuration/QueueConfiguration.cs:3-14 | a bound queue entry takes every key the section sets and otherwise the initialiser's default: enabled unless `Enabled` is false, 3 attempts, one competing consumer per processor, empty names; an entry with no keys binds to `new QueueConfiguration()` |
| Settings.BindQueues | src/Edgamat.Messaging/Configuration/AzureServiceBusBuilder.cs:77 | one bound entry per section entry, in order |
| Settings.BindSection | src/Edgamat.Messaging/Configuration/AzureServiceBusBuilder.cs:76-77 | the connection string if set, else empty; the queues bound entry by entry; the subscriptions as held |
| Registration.EntryEnabledUnlessDisabled | src/Edgamat.Messaging/Configuration/AzureServiceBusBuilder.cs:77-81 | a section entry is among those Build registers exactly when its `Enabled` key is not false |
| Settings.NewAzureServiceBusSettings | src/Edgamat.Messaging/Configuration/AzureServiceBusSettings.cs:3-12 | unbound settings have no queues, no subscriptions and an empty connection string |
| Hosting.QueueProcessor | src/Edgamat.Messaging/ServiceBusConsumersHostedService.cs:45-58 | a queue processor receives from the queue with the entry's concurrency, without auto-completion, and hands deliveries on with no subscription name and the entry's attempt limit and consumer type |
| Hosting.SubscriptionProcessor | src/Edgamat.Messaging/ServiceBusConsumersHostedService.cs:71-84 | a subscription processor receives from the topic's subscription, passes the topic as the entity name and the subscription name, and uses the entry's concurrency, attempt limit and consumer type |
| Hosting.QueueProcessors | src/Edgamat.Messaging/ServiceBusConsumersHostedService.cs:43-62 | one processor per queue-map entry, in enumeration order |
| Hosting.SubscriptionProcessors | src/Edgamat.Messaging/ServiceBusConsumersHostedService.cs:69-88 | one processor per subscription-map entry, in enumeration order |
| Hosting.StartedPrefix | src/Edgamat.Messaging/ServiceBusConsumersHostedService.cs:61 | the processor after the started prefix is the one whose start failed |
| Hosting.StartedPrefixAt | src/Edgamat.Messaging/ServiceBusConsumersHostedService.cs:43-62 | the started prefix ends at the first processor whose start fails |
| Hosting.StartedPrefixAppend | src/Edgamat.Messaging/ServiceBusConsumersHostedService.cs:30-37 | starting queues then subscriptions stops at the first failure across both |
| Hosting.StartLog | src/Edgamat.Messaging/ServiceBusConsumersHostedService.cs:45-61 | two broker calls per processor started |
| Hosting.StartLogOrder | src/Edgamat.Messaging/ServiceBusConsumersHostedService.cs:45-61 | each processor is created and then started before the next one is created |
| Hosting.StartLogAppend | src/Edgamat.Messaging/ServiceBusConsumersHostedService.cs:30-37 | starting queues and then subscriptions logs the queue calls followed by the subscription calls |
| Hosting.StartEffect | src/Edgamat.Messaging/ServiceBusConsumersHostedService.cs:43-62 | the effect of one start loop: every processor created, recorded and started when all starts succeed; otherwise the first failing start's exception, with the failing processor recorded and its creation the last recorded broker call (the failed start is not recorded) |
| Hosting.StartEffectSequential | src/Edgamat.Messaging/ServiceBusConsumersHostedService.cs:30-37 | running the queue loop and, if it succeeded, the subscription loop has the effect of one loop over both plans |
| Hosting.StartEffectFirstFails | src/Edgamat.Messaging/ServiceBusConsumersHostedService.cs:34 | a failure during the queue loop ends the start with that failure, and no subscription processor is created |
| Hosting.StartEffectSecondFails | src/Edgamat.Messaging/ServiceBusConsumersHostedService.cs:36 | a failure during the subscription loop keeps every queue processor and ends at the failing subscription processor |
| Hosting.ServiceBusConsumersHostedService.StartEach | src/Edgamat.Messaging/ServiceBusConsumersHostedService.cs:43-62 | every processor is created, appended and started in order; the first start failure ends the loop with its exception, after the failing processor was appended and before any later one was created |
| Hosting.ServiceBusConsumersHostedService.ProcessQueuesAsync | src/Edgamat.Messaging/ServiceBusConsumersHostedService.cs:39-63 | the start loop over the queue processors |
| Hosting.ServiceBusConsumersHostedService.ProcessSubscriptionsAsync | src/Edgamat.Messaging/ServiceBusConsumersHostedService.cs:65-89 | the start loop over the subscription processors |
| Hosting.ServiceBusConsumersHostedService.StartAsync | src/Edgamat.Messaging/ServiceBusConsumersHostedService.cs:30-37 | the effect of one start loop over the queue processors followed by the subscription processors |
| Hosting.QueuesBeforeSubscriptions | src/Edgamat.Messaging/ServiceBusConsumersHostedService.cs:30-37 | in the start plan every queue processor comes before every subscription processor |
| Hosting.ServiceBusConsumersHostedService.ProcessErrorAsync | src/Edgamat.Messaging/ServiceBusConsumersHostedService.cs:91-99 | an error-log entry naming the entity and the source is appended exactly when the error does not come from the message callback; nothing else changes |
| Hosting.BuildMessageContext | src/Edgamat.Messaging/ServiceBusConsumersHostedService.cs:108-123 | every field is copied from the delivery and the processor's binding; the diagnostic id is set exactly when the `Diagnostic-Id` property is present and is a string, and then to that string |
| Hosting.ServiceBusConsumersHostedService.ProcessMessageAsync | src/Edgamat.Messaging/ServiceBusConsumersHostedService.cs:101-139 | the bound consumer runs on the context built for the delivery, and the message is completed exactly when the consumer ran to completion |
| Hosting.ServiceBusConsumersHostedService.DeliverAsync | src/Edgamat.Messaging/ServiceBusConsumersHostedService.cs:54-58 | one delivery through both callbacks: a completed delivery logs only its completion, and a failed one leaves the broker log unchanged, with no error entry |
| Hosting.FailedDeliveryLogging | src/Edgamat.Messaging/JsonConsumer.cs:21-37 | for a JSON consumer, a handler failure writes exactly one failure log and the delivery is not completed; a payload that does not decode faults before the handler with no failure log |
| Hosting.CompletionRequiresHandlerSuccess | src/Edgamat.Messaging/ServiceBusConsumersHostedService.cs:134-138 | with a JSON consumer, a message is completed only when its payload decoded and the handler returned |
| Hosting.StopLog | src/Edgamat.Messaging/ServiceBusConsumersHostedService.cs:144-149 | two broker calls per processor stopped |
| Hosting.StopLogOrder | src/Edgamat.Messaging/ServiceBusConsumersHostedService.cs:144-149 | each processor is stopped and then disposed before the next, in the order they were added |
| Hosting.ServiceBusConsumersHostedService.StopAsync | src/Edgamat.Messaging/ServiceBusConsumersHostedService.cs:141-150 | the broker sees exactly the stop-then-dispose calls for the processor list |
| Telemetry.StripKeys | samples/host/ConfigureTelemetry.cs:143-149 | removing pairs never lengthens the list |
| Telemetry.StripKeysMember | samples/host/ConfigureTelemetry.cs:143-149 | a pair survives the removal loop exactly when it was present and its key is not configured |
| Telemetry.StripKeysIsSubsequence | samples/host/ConfigureTelemetry.cs:143-149 | the surviving pairs keep their original relative order |
| Telemetry.StripKeysKeys | samples/host/ConfigureTelemetry.cs:143-149 | the keys left are the original keys minus the configured ones |
| Telemetry.StripKeysAppend | samples/host/ConfigureTelemetry.cs:143-149 | removal distributes over concatenation |
| Telemetry.MergeAttributes | samples/host/ConfigureTelemetry.cs:143-157 | the merged list ends with all the configured pairs, in enumeration order, and is no longer than the old list plus them |
| Telemetry.MergeAttributesKeys | samples/host/ConfigureTelemetry.cs:143-155 | after the merge every configured key appears exactly once, paired with its configured value, and every other key keeps all its pairs |
| Telemetry.MergeAttributesOrder | samples/host/ConfigureTelemetry.cs:143-157 | the pairs whose key is not configured come first, in their original relative order, followed by the configured pairs in enumeration order |
| Telemetry.MergeAttributesIdempotent | samples/host/ConfigureTelemetry.cs:143-157 | applying the attribute processor twice gives the same list as once |
| Telemetry.AddAttributesProcessor.OnEnd | samples/host/ConfigureTelemetry.cs:136-158 | a record with no attribute list is left untouched; otherwise the list becomes the merge of the old list with the configured attributes |
| Telemetry.AddMissingTags | samples/host/ConfigureTelemetry.cs:190-196 | the tag list starts with the old tags, unchanged and in order, followed by at most one tag per configured pair |
| Telemetry.AddMissingTagsSpec | samples/host/ConfigureTelemetry.cs:190-196 | existing tags are never overwritten or reordered; afterwards every configured key is present; each added tag is a configured pair whose key was absent |
| Telemetry.AddMissingTagsIdempotent | samples/host/ConfigureTelemetry.cs:190-196 | applying the tag loop twice gives the same tags as once |
| Telemetry.AddTagStep | samples/host/ConfigureTelemetry.cs:190-196 | within the loop, a configured key is missing exactly when it was missing at the start, because configured keys are distinct |
| Telemetry.ClearRecorded | samples/host/ConfigureTelemetry.cs:178 | the Recorded bit is cleared and every other trace-flag bit is kept |
| Telemetry.ClearRecordedIdempotent | samples/host/ConfigureTelemetry.cs:178-184 | clearing the bit twice, when both rules match, is clearing it once |
| Telemetry.HasKey | samples/host/ConfigureTelemetry.cs:192 | a tag with the key exists exactly when the key is among the tag keys |
| Telemetry.AddSpanTagsProcessor.OnEnd | samples/host/ConfigureTelemetry.cs:169-198 | the Recorded bit is cleared, and only that bit, exactly when the span is an Error receive span whose description contains "TaskCanceledException", or a "Message" span of the message source; the tags become the old tags plus the missing configured ones; nothing else changes |
| Telemetry.IsCanceledReceive | samples/host/ConfigureTelemetry.cs:173-175 | the first suppression rule: error status, a description containing "TaskCanceledException" (ordinal `Contains`), and the `ServiceBusReceiver.Receive` name |
| Telemetry.IsMessageSpan | samples/host/ConfigureTelemetry.cs:181 | the second suppression rule: the `Azure.Messaging.ServiceBus.Message` source and the `Message` name |
| Telemetry.CanceledReceiveRule | samples/host/ConfigureTelemetry.cs:173-175 | on sample spans: a receive span is taken for a cancelled receive only with the error status, a description containing "TaskCanceledException" and the `ServiceBusReceiver.Receive` name |
| Telemetry.MessageSpanRule | samples/host/ConfigureTelemetry.cs:181 | on sample spans: a span is the per-message span only with both the message source name and the `Message` display name |
| Telemetry.AddSpanTagsProcessor.Suppress | samples/host/ConfigureTelemetry.cs:173-185 | the two suppression rules, each clearing the Recorded bit |
| Telemetry.AddSpanTagsProcessor.AddTags | samples/host/ConfigureTelemetry.cs:190-196 | the tag list becomes the old tags plus the configured tags whose key is absent |

## Left out

- Log message texts, templates and the debug and information logs are left out. Which failures are logged, and at which level, is modelled: the consumer's error and warning steps, and the error entries of the processor's error callback. `DiagnosticsConfig` activities and the span tags set by the library itself are left out; they have no effect on control flow.
- `Consumers.Consume`: a handler that throws `OperationCanceledException` makes the rethrowing task end as cancelled rather than faulted; the model treats every handler exception alike and gives a faulted completion.
- Concurrency is left out: parallel message callbacks under `MaxConcurrentCalls`, and the thread safety of `ConcurrentDictionary` and of `Lazy` (`LazyThreadSafetyMode.ExecutionAndPublication`). Calls are modelled one at a time, so "one creation under contention" becomes "created at most once per name".
- JSON serialisation and deserialisation are foreign. They appear as decoder and encoder parameters.
- `Task.Delay` timing is left out. The delay is an event carrying its one-second value, and cancellation during it is a parameter.
- `Guid.NewGuid` is a fresh-id parameter. Global uniqueness of ids is not modelled.
- Dependency injection, scopes and `AddAzureClients` are recorded only as registration entries. `Type.GetType` and `IsAssignableFrom` are a catalog, and nothing is resolved at run time.
- `QueueConsumerMap`, `SubscriptionConsumerMap` and `QueueSettings` are not part of this model.
  - The map's `Add` is modelled with both possible duplicate-key behaviours, overwrite and reject, chosen by a policy.
  - `QueueSettings` is taken to have `QueueConfiguration`'s fields and initialisers. A configuration section holds each entry as the keys it sets, and binding starts from those initialisers.
  - `new QueueDetails()` is not modelled: `MapConsumerToQueue` sets all three of its properties, so its initialisers are never observed.
  - `Build` never registers a `SubscriptionConsumerMap`, so the `GetRequiredService` call at `ServiceBusConsumersHostedService.cs:67` would throw for a collection built only by the builder. The model assumes that call succeeds and takes the subscription map as an input to the hosted service.
- Dictionary enumeration order is left out. The maps are taken as sequences in their enumeration order.
- Broker failures are partly left out. `CreateProcessor`, `CreateSender`, `StopProcessingAsync`, `DisposeAsync` and `CompleteMessageAsync` are taken to succeed. The failures that are modelled are those of `StartProcessingAsync`, of sender creation and of `SendMessageAsync`.
- `Json3Publisher` delegates to a foreign Azure client factory. `KeyedJsonPublisher` holds one sender fixed at construction, and its publish body repeats `JsonPublisher`'s. Both are left out.
- `ConfigureOpenTelemetry` and `GetAssemblyVersion` are exporter wiring and reflection, left out. So are the host loop in `Worker.cs` and the bootstrap in `Program.cs`.
- `Telemetry.AddSpanTagsProcessor.OnEnd` simplifies how `Activity` stores tags. `Tags` (string values) and `TagObjects` (all values) are modelled as one list, and `SetTag` with a null value, which removes a tag, is not modelled. In the source the missing-key check reads `Tags` only, so a configured key present with a non-string value would be overwritten; the model does not capture that.
- The source's `data is null` check comes after `data` has been dereferenced, so it can never fire. `base.OnEnd` does nothing. Both are left out.
- `Registration.AzureServiceBusBuilder.Build` registers the queue map as a value taken when `Build` runs. The source registers the `_queueMap` object itself (`AzureServiceBusBuilder.cs:89`), so a consumer added to the builder after `Build` is still seen by the hosted service; the model does not capture that aliasing.
- `AddAttributesProcessor` works on a copy of the record's attribute list (`ToList`) and then assigns it. Because sequences are values here, the model assigns a new list directly, and aliasing of the old list is not modelled.
