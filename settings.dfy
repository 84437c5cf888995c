/**
 * The configuration records of the library, with the defaults their property initialisers give.
 * Environment.ProcessorCount is a parameter wherever it is used as a default.
 */
module Settings {
  import opened Wrappers

  /** The section name WithConfiguration uses when none is given. */
  const DefaultConfigurationSection: string := "AzureServiceBus"

  /** The attempt limit every record defaults to. */
  const DefaultMaxDeliveryAttempts: int := 3

  /** A consumer type, as System.Type; only its full name is observable. */
  datatype ConsumerType = ConsumerType(fullName: string)

  /** One queue entry of the configuration section; ConsumerType is still a type name here. */
  datatype QueueConfiguration = QueueConfiguration(
    queueName: string,
    consumerType: string,
    maxCompetingConsumers: int,
    maxDeliveryAttempts: int,
    enabled: bool)

  /** What the registry stores per queue name. */
  datatype QueueDetails = QueueDetails(
    consumerType: ConsumerType,
    maxCompetingConsumers: int,
    maxDeliveryAttempts: int)

  /** One subscription entry of the configuration section. */
  datatype SubscriptionSettings = SubscriptionSettings(
    topicName: string,
    subscriptionName: string,
    consumerType: ConsumerType,
    maxCompetingConsumers: int,
    maxDeliveryAttempts: int,
    enabled: bool)

  /** What the subscription registry stores per topic and subscription. */
  datatype SubscriptionDetails = SubscriptionDetails(
    consumerType: ConsumerType,
    maxCompetingConsumers: int,
    maxDeliveryAttempts: int)

  /** The key of the subscription registry. */
  datatype SubscriptionKey = SubscriptionKey(topicName: string, subscriptionName: string)

  /** The bound configuration section. */
  datatype AzureServiceBusSettings = AzureServiceBusSettings(
    connectionString: string,
    queues: seq<QueueConfiguration>,
    subscriptions: seq<SubscriptionSettings>)

  /** `new QueueConfiguration()`: every queue entry is enabled and allows three attempts unless configured otherwise. */
  function NewQueueConfiguration(processorCount: int): (q: QueueConfiguration)
    ensures q.enabled
    ensures q.maxDeliveryAttempts == DefaultMaxDeliveryAttempts
    ensures q.maxCompetingConsumers == processorCount
    ensures q.queueName == "" && q.consumerType == ""
  {
    QueueConfiguration("", "", processorCount, DefaultMaxDeliveryAttempts, true)
  }

  /** `new AzureServiceBusSettings()`: what binding a missing section leaves. */
  function NewAzureServiceBusSettings(): (s: AzureServiceBusSettings)
    ensures s.queues == [] && s.subscriptions == [] && s.connectionString == ""
  {
    AzureServiceBusSettings("", [], [])
  }

  /** One queue entry as a configuration section holds it: only the keys it sets are present. */
  datatype QueueEntry = QueueEntry(
    queueName: Option<string>,
    consumerType: Option<string>,
    maxCompetingConsumers: Option<int>,
    maxDeliveryAttempts: Option<int>,
    enabled: Option<bool>)

  /** A configuration section before binding. Subscription entries are held already bound. */
  datatype SettingsSection = SettingsSection(
    connectionString: Option<string>,
    queues: seq<QueueEntry>,
    subscriptions: seq<SubscriptionSettings>)

  /** Binding one entry: a key that is present overwrites the initialiser of `new QueueConfiguration()`. */
  function BindQueue(entry: QueueEntry, processorCount: int): (q: QueueConfiguration)
    // an entry is enabled unless it says Enabled = false
    ensures q.enabled <==> entry.enabled != Some(false)
    ensures entry.maxDeliveryAttempts.None? ==> q.maxDeliveryAttempts == DefaultMaxDeliveryAttempts
    ensures entry.maxCompetingConsumers.None? ==> q.maxCompetingConsumers == processorCount
    ensures entry.maxDeliveryAttempts.Some? ==> q.maxDeliveryAttempts == entry.maxDeliveryAttempts.value
    ensures entry.maxCompetingConsumers.Some? ==> q.maxCompetingConsumers == entry.maxCompetingConsumers.value
    ensures q.queueName == (if entry.queueName.Some? then entry.queueName.value else "")
    ensures q.consumerType == (if entry.consumerType.Some? then entry.consumerType.value else "")
    // an entry with no keys binds to the defaults
    ensures entry == QueueEntry(None, None, None, None, None) ==> q == NewQueueConfiguration(processorCount)
  {
    var q := NewQueueConfiguration(processorCount);
    var q := if entry.queueName.Some? then q.(queueName := entry.queueName.value) else q;
    var q := if entry.consumerType.Some? then q.(consumerType := entry.consumerType.value) else q;
    var q := if entry.maxCompetingConsumers.Some? then q.(maxCompetingConsumers := entry.maxCompetingConsumers.value) else q;
    var q := if entry.maxDeliveryAttempts.Some? then q.(maxDeliveryAttempts := entry.maxDeliveryAttempts.value) else q;
    if entry.enabled.Some? then q.(enabled := entry.enabled.value) else q
  }

  /** Binding the Queues list, entry by entry. */
  function BindQueues(entries: seq<QueueEntry>, processorCount: int): (qs: seq<QueueConfiguration>)
    ensures |qs| == |entries|
    ensures forall i :: 0 <= i < |entries| ==> qs[i] == BindQueue(entries[i], processorCount)
    decreases |entries|
  {
    if entries == [] then [] else [BindQueue(entries[0], processorCount)] + BindQueues(entries[1..], processorCount)
  }

  /** Binding a section onto `new AzureServiceBusSettings()`. */
  function BindSection(section: SettingsSection, processorCount: int): (s: AzureServiceBusSettings)
    ensures s.connectionString == (if section.connectionString.Some? then section.connectionString.value else "")
    ensures s.queues == BindQueues(section.queues, processorCount) && s.subscriptions == section.subscriptions
  {
    var s := NewAzureServiceBusSettings();
    var s := if section.connectionString.Some? then s.(connectionString := section.connectionString.value) else s;
    s.(queues := BindQueues(section.queues, processorCount), subscriptions := section.subscriptions)
  }
}
