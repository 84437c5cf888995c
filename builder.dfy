/**
 * AzureServiceBusBuilder: the fluent registration API and Build, which binds the configuration
 * section and maps every enabled queue entry to its consumer type and delivery policy.
 */
module Registration {
  import opened Wrappers
  import opened Settings

  /**
   * What reflection can tell: Type.GetType as a partial map from type names to types, and the set
   * of types that implement IConsumer<MessageContext>.
   */
  datatype TypeCatalog = TypeCatalog(loadable: map<string, ConsumerType>, consumers: set<ConsumerType>)

  /** An IConfiguration: the sections it holds, by name. */
  datatype Configuration = Configuration(sections: map<string, SettingsSection>)

  /**
   * What the queue map's Add does with a name that is already there. The map's type is not part
   * of this model, so both behaviours are modelled.
   */
  datatype DuplicatePolicy = Overwrite | Reject

  /** AzureServiceBusConfigurationException and the duplicate-key exception, with the names they report. */
  datatype ConfigurationError =
    | ConfigurationNotSet
    | ConsumerTypeNotFound(typeName: string, queueName: string)
    | NotAConsumer(fullName: string)
    | DuplicateQueue(queueName: string)

  /** A registration in the service collection. */
  datatype Service =
    | ScopedConsumer(consumerType: ConsumerType)
    | SettingsSingleton(settings: AzureServiceBusSettings)
    | QueueMapSingleton(queueMap: map<string, QueueDetails>)
    | HostedConsumers
    | ScopedPublisher(implementation: string)   // scoped IPublisher, by implementation class
    | KeyedPublisher(key: string)             // keyed singleton KeyedJsonPublisher for one destination
    | AzureClients(connectionString: string, senderNames: seq<string>)

  /** The registry under construction: the queue map and the service collection. */
  datatype Registry = Registry(queueMap: map<string, QueueDetails>, services: seq<Service>)

  /** A registry after an operation that may have thrown part-way. */
  datatype Mapped = Mapped(registry: Registry, error: Option<ConfigurationError>)

  /** `GetSection(section).Bind(settings)`: a missing section leaves the defaults. */
  function Bind(configuration: Configuration, section: string, processorCount: int): (s: AzureServiceBusSettings)
    ensures section in configuration.sections ==> s == BindSection(configuration.sections[section], processorCount)
    ensures section !in configuration.sections ==> s == NewAzureServiceBusSettings()
    // every entry of the section gives one queue configuration, in order
    ensures section in configuration.sections ==> |s.queues| == |configuration.sections[section].queues|
  {
    if section in configuration.sections then BindSection(configuration.sections[section], processorCount)
    else NewAzureServiceBusSettings()
  }

  /** MapConsumerToQueue on values. */
  function MapConsumer(reg: Registry, catalog: TypeCatalog, policy: DuplicatePolicy, consumerType: ConsumerType,
                       queueName: string, maxCompetingConsumers: int, maxDeliveryAttempts: int): (r: Mapped)
    // a type that is not a consumer is rejected before anything is registered
    ensures consumerType !in catalog.consumers <==> r.error == Some(NotAConsumer(consumerType.fullName))
    ensures consumerType !in catalog.consumers ==> r.registry == reg
    // otherwise the consumer type is registered as a scoped service first
    ensures consumerType in catalog.consumers ==> r.registry.services == reg.services + [ScopedConsumer(consumerType)]
    // a successful mapping stores exactly the given details under the name
    ensures r.error.None? ==>
              r.registry.queueMap == reg.queueMap[queueName := QueueDetails(consumerType, maxCompetingConsumers, maxDeliveryAttempts)]
    ensures r.error.None? <==> consumerType in catalog.consumers && (policy.Overwrite? || queueName !in reg.queueMap)
    ensures r.error.Some? ==> r.registry.queueMap == reg.queueMap
  {
    if consumerType !in catalog.consumers then Mapped(reg, Some(NotAConsumer(consumerType.fullName)))
    else
      var services := reg.services + [ScopedConsumer(consumerType)];
      if policy.Reject? && queueName in reg.queueMap then Mapped(Registry(reg.queueMap, services), Some(DuplicateQueue(queueName)))
      else Mapped(Registry(reg.queueMap[queueName := QueueDetails(consumerType, maxCompetingConsumers, maxDeliveryAttempts)], services), None)
  }

  /** One queue entry of Build's loop: load the type by name, then map it. */
  function RegisterQueue(reg: Registry, catalog: TypeCatalog, policy: DuplicatePolicy, queue: QueueConfiguration): (r: Mapped)
    ensures queue.consumerType !in catalog.loadable ==>
              r == Mapped(reg, Some(ConsumerTypeNotFound(queue.consumerType, queue.queueName)))
    ensures queue.consumerType in catalog.loadable ==>
              r == MapConsumer(reg, catalog, policy, catalog.loadable[queue.consumerType], queue.queueName,
                               queue.maxCompetingConsumers, queue.maxDeliveryAttempts)
  {
    if queue.consumerType !in catalog.loadable then Mapped(reg, Some(ConsumerTypeNotFound(queue.consumerType, queue.queueName)))
    else MapConsumer(reg, catalog, policy, catalog.loadable[queue.consumerType], queue.queueName,
                     queue.maxCompetingConsumers, queue.maxDeliveryAttempts)
  }

  /** Build's loop over `settings.Queues.Where(q => q.Enabled)`, stopping at the first exception. */
  function RegisterEnabled(reg: Registry, catalog: TypeCatalog, policy: DuplicatePolicy, queues: seq<QueueConfiguration>): (r: Mapped)
    // the loop only appends registrations, each a scoped consumer
    ensures |reg.services| <= |r.registry.services| && r.registry.services[..|reg.services|] == reg.services
    ensures forall i :: |reg.services| <= i < |r.registry.services| ==> r.registry.services[i].ScopedConsumer?
    // with no enabled entry nothing changes
    ensures (forall q :: q in queues ==> !q.enabled) ==> r == Mapped(reg, None)
    decreases |queues|
  {
    if queues == [] then Mapped(reg, None)
    else if !queues[0].enabled then RegisterEnabled(reg, catalog, policy, queues[1..])
    else
      var step := RegisterQueue(reg, catalog, policy, queues[0]);
      if step.error.Some? then step else RegisterEnabled(step.registry, catalog, policy, queues[1..])
  }

  /** The enabled entries. */
  function Enabled(queues: seq<QueueConfiguration>): (e: seq<QueueConfiguration>)
    ensures forall q :: q in e <==> q in queues && q.enabled
    decreases |queues|
  {
    if queues == [] then []
    else (if queues[0].enabled then [queues[0]] else []) + Enabled(queues[1..])
  }

  /** The queue names of the entries. */
  function QueueNames(queues: seq<QueueConfiguration>): (names: seq<string>)
    ensures |names| == |queues|
    ensures forall i :: 0 <= i < |queues| ==> names[i] == queues[i].queueName
    decreases |queues|
  {
    if queues == [] then [] else [queues[0].queueName] + QueueNames(queues[1..])
  }

  /** An entry is among those Build registers unless its Enabled key is false. */
  lemma EntryEnabledUnlessDisabled(entries: seq<QueueEntry>, processorCount: int, i: nat)
    requires i < |entries|
    ensures var q := BindQueue(entries[i], processorCount);
            entries[i].enabled != Some(false) <==> q in Enabled(BindQueues(entries, processorCount)) && q.enabled
  {
    assert BindQueues(entries, processorCount)[i] == BindQueue(entries[i], processorCount);
  }

  /** Disabled entries play no part: registering all entries is registering the enabled ones. */
  lemma {:induction false} DisabledEntriesIgnored(reg: Registry, catalog: TypeCatalog, policy: DuplicatePolicy, queues: seq<QueueConfiguration>)
    ensures RegisterEnabled(reg, catalog, policy, queues) == RegisterEnabled(reg, catalog, policy, Enabled(queues))
    decreases |queues|
  {
    if queues != [] {
      var e := Enabled(queues);
      assert e == (if queues[0].enabled then [queues[0]] else []) + Enabled(queues[1..]);
      if queues[0].enabled {
        assert e[0] == queues[0] && e[1..] == Enabled(queues[1..]);
        var step := RegisterQueue(reg, catalog, policy, queues[0]);
        if step.error.None? {
          DisabledEntriesIgnored(step.registry, catalog, policy, queues[1..]);
        }
      } else {
        assert e == Enabled(queues[1..]);
        DisabledEntriesIgnored(reg, catalog, policy, queues[1..]);
      }
    }
  }

  /** Every name the loop adds is the queue name of an enabled entry; nothing else is touched. */
  lemma {:induction false} OnlyEnabledQueuesMapped(reg: Registry, catalog: TypeCatalog, policy: DuplicatePolicy,
                                                   queues: seq<QueueConfiguration>, name: string)
    requires name in RegisterEnabled(reg, catalog, policy, queues).registry.queueMap
    requires name !in reg.queueMap || RegisterEnabled(reg, catalog, policy, queues).registry.queueMap[name] != reg.queueMap[name]
    ensures exists q :: q in queues && q.enabled && q.queueName == name
    decreases |queues|
  {
    if queues == [] {
    } else if !queues[0].enabled {
      OnlyEnabledQueuesMapped(reg, catalog, policy, queues[1..], name);
      var q :| q in queues[1..] && q.enabled && q.queueName == name;
      assert q in queues;
    } else {
      var step := RegisterQueue(reg, catalog, policy, queues[0]);
      if step.error.Some? {
        assert false;
      } else if name == queues[0].queueName {
        assert queues[0] in queues;
      } else {
        assert name in step.registry.queueMap <==> name in reg.queueMap;
        OnlyEnabledQueuesMapped(step.registry, catalog, policy, queues[1..], name);
        var q :| q in queues[1..] && q.enabled && q.queueName == name;
        assert q in queues;
      }
    }
  }

  /**
   * When the loop succeeds, every enabled entry's type was loadable and a consumer, and its queue
   * name is mapped; with a rejecting map every enabled entry's details are stored exactly.
   */
  lemma {:induction false} EnabledQueuesMappedOnSuccess(reg: Registry, catalog: TypeCatalog, policy: DuplicatePolicy,
                                                        queues: seq<QueueConfiguration>)
    requires RegisterEnabled(reg, catalog, policy, queues).error.None?
    ensures forall q :: q in queues && q.enabled ==>
              && q.consumerType in catalog.loadable
              && catalog.loadable[q.consumerType] in catalog.consumers
              && q.queueName in RegisterEnabled(reg, catalog, policy, queues).registry.queueMap
    ensures policy.Reject? ==> forall q :: q in queues && q.enabled ==>
              RegisterEnabled(reg, catalog, policy, queues).registry.queueMap[q.queueName] ==
                QueueDetails(catalog.loadable[q.consumerType], q.maxCompetingConsumers, q.maxDeliveryAttempts)
    decreases |queues|
  {
    if queues != [] {
      var rest := queues[1..];
      assert forall q :: q in queues ==> q == queues[0] || q in rest;
      if !queues[0].enabled {
        EnabledQueuesMappedOnSuccess(reg, catalog, policy, rest);
      } else {
        var step := RegisterQueue(reg, catalog, policy, queues[0]);
        EnabledQueuesMappedOnSuccess(step.registry, catalog, policy, rest);
        RegisterKeepsNames(step.registry, catalog, policy, rest, queues[0].queueName);
      }
    }
  }

  /** A successful loop never removes a name; with a rejecting map it never changes one either. */
  lemma {:induction false} RegisterKeepsNames(reg: Registry, catalog: TypeCatalog, policy: DuplicatePolicy,
                                             queues: seq<QueueConfiguration>, name: string)
    requires name in reg.queueMap
    ensures name in RegisterEnabled(reg, catalog, policy, queues).registry.queueMap
    ensures policy.Reject? ==> RegisterEnabled(reg, catalog, policy, queues).registry.queueMap[name] == reg.queueMap[name]
    decreases |queues|
  {
    if queues != [] {
      if !queues[0].enabled {
        RegisterKeepsNames(reg, catalog, policy, queues[1..], name);
      } else {
        var step := RegisterQueue(reg, catalog, policy, queues[0]);
        if step.error.None? {
          RegisterKeepsNames(step.registry, catalog, policy, queues[1..], name);
        }
      }
    }
  }

  /** An unloadable type name aborts the loop with an error that names a configured enabled entry. */
  lemma {:induction false} TypeNotFoundNamesEntry(reg: Registry, catalog: TypeCatalog, policy: DuplicatePolicy,
                                                  queues: seq<QueueConfiguration>, typeName: string, queueName: string)
    requires RegisterEnabled(reg, catalog, policy, queues).error == Some(ConsumerTypeNotFound(typeName, queueName))
    ensures exists q :: q in queues && q.enabled && q.consumerType == typeName && q.queueName == queueName &&
                        typeName !in catalog.loadable
    decreases |queues|
  {
    assert queues != [];
    var step := RegisterQueue(reg, catalog, policy, queues[0]);
    if queues[0].enabled && step.error.Some? {
      assert queues[0] in queues;
    } else {
      TypeNotFoundNamesEntry(if queues[0].enabled then step.registry else reg, catalog, policy, queues[1..], typeName, queueName);
      var q :| q in queues[1..] && q.enabled && q.consumerType == typeName && q.queueName == queueName && typeName !in catalog.loadable;
      assert q in queues;
    }
  }

  /** The builder returned by AddAzureServiceBus. */
  class AzureServiceBusBuilder {
    /** What Type.GetType and IsAssignableFrom see. */
    const catalog: TypeCatalog
    /** How the queue map's Add treats a name already present. */
    const policy: DuplicatePolicy
    /** Environment.ProcessorCount. */
    const processorCount: int
    var configuration: Option<Configuration>
    var configurationSection: Option<string>
    var queueMap: map<string, QueueDetails>
    var services: seq<Service>

    constructor (services: seq<Service>, catalog: TypeCatalog, policy: DuplicatePolicy, processorCount: int)
      ensures this.services == services && this.catalog == catalog && this.policy == policy
      ensures this.processorCount == processorCount
      ensures configuration == None && configurationSection == None && queueMap == map[]
    {
      this.services := services;
      this.catalog := catalog;
      this.policy := policy;
      this.processorCount := processorCount;
      configuration := None;
      configurationSection := None;
      queueMap := map[];
    }

    method WithConfiguration(configuration: Configuration, configurationSection: string := DefaultConfigurationSection)
      returns (b: AzureServiceBusBuilder)
      modifies this
      ensures b == this
      ensures this.configuration == Some(configuration) && this.configurationSection == Some(configurationSection)
      ensures queueMap == old(queueMap) && services == old(services)
    {
      this.configuration := Some(configuration);
      this.configurationSection := Some(configurationSection);
      return this;
    }

    method AddBusConsumersHostedService() returns (b: AzureServiceBusBuilder)
      modifies this
      ensures b == this
      ensures services == old(services) + [HostedConsumers]
      ensures queueMap == old(queueMap) && configuration == old(configuration) && configurationSection == old(configurationSection)
    {
      services := services + [HostedConsumers];
      return this;
    }

    /**
     * AddConsumer<TConsumer>(queueName, maxCompetingConsumers = 1, maxDeliveryAttempts = 3). A call
     * with the queue name alone binds to the one-argument overload (AddConsumerForAllProcessors), so
     * the default of 1 competing consumer applies only when maxDeliveryAttempts is passed by name.
     */
    method AddConsumer(consumerType: ConsumerType, queueName: string, maxCompetingConsumers: int := 1,
                       maxDeliveryAttempts: int := DefaultMaxDeliveryAttempts)
      returns (b: Result<AzureServiceBusBuilder, ConfigurationError>)
      modifies this
      ensures var m := MapConsumer(old(Registry(queueMap, services)), catalog, policy, consumerType, queueName,
                                   maxCompetingConsumers, maxDeliveryAttempts);
              && Registry(queueMap, services) == m.registry
              && b == (if m.error.Some? then Failure(m.error.value) else Success(this))
      ensures configuration == old(configuration) && configurationSection == old(configurationSection)
    {
      var error := MapConsumerToQueue(consumerType, queueName, maxCompetingConsumers, maxDeliveryAttempts);
      if error.Some? {
        return Failure(error.value);
      }
      return Success(this);
    }

    /** AddConsumer<TConsumer>(queueName): as many concurrent calls as processors, three attempts. */
    method AddConsumerForAllProcessors(consumerType: ConsumerType, queueName: string)
      returns (b: Result<AzureServiceBusBuilder, ConfigurationError>)
      modifies this
      ensures var m := MapConsumer(old(Registry(queueMap, services)), catalog, policy, consumerType, queueName,
                                   processorCount, DefaultMaxDeliveryAttempts);
              && Registry(queueMap, services) == m.registry
              && b == (if m.error.Some? then Failure(m.error.value) else Success(this))
      ensures configuration == old(configuration) && configurationSection == old(configurationSection)
    {
      b := AddConsumer(consumerType, queueName, processorCount);
    }

    method AddPublisher() returns (b: AzureServiceBusBuilder)
      modifies this
      ensures b == this
      ensures services == old(services) + [ScopedPublisher("Json3Publisher")]
      ensures queueMap == old(queueMap) && configuration == old(configuration) && configurationSection == old(configurationSection)
    {
      services := services + [ScopedPublisher("Json3Publisher")];
      return this;
    }

    method AddKeyedPublisher(queueOrTopicName: string) returns (b: AzureServiceBusBuilder)
      modifies this
      ensures b == this
      ensures services == old(services) + [KeyedPublisher(queueOrTopicName)]
      ensures queueMap == old(queueMap) && configuration == old(configuration) && configurationSection == old(configurationSection)
    {
      services := services + [KeyedPublisher(queueOrTopicName)];
      return this;
    }

    /** Build: fail when unconfigured; otherwise register the settings, then every enabled queue. */
    method Build() returns (r: Result<seq<Service>, ConfigurationError>)
      modifies this
      ensures configuration.None? || configurationSection.None? ==>
                r == Failure(ConfigurationNotSet) && queueMap == old(queueMap) && services == old(services)
      ensures configuration.Some? && configurationSection.Some? ==>
                var settings := Bind(configuration.value, configurationSection.value, processorCount);
                var m := RegisterEnabled(Registry(old(queueMap), old(services) + [SettingsSingleton(settings)]),
                                         catalog, policy, settings.queues);
                && queueMap == m.registry.queueMap
                && (m.error.Some? ==> r == Failure(m.error.value) && services == m.registry.services)
                && (m.error.None? ==>
                      && services == m.registry.services + [QueueMapSingleton(queueMap),
                                                            AzureClients(settings.connectionString, QueueNames(Enabled(settings.queues)))]
                      && r == Success(services))
      ensures configuration == old(configuration) && configurationSection == old(configurationSection)
    {
      if configuration.None? || configurationSection.None? {
        return Failure(ConfigurationNotSet);
      }
      var settings := Bind(configuration.value, configurationSection.value, processorCount);
      services := services + [SettingsSingleton(settings)];
      ghost var start := Registry(queueMap, services);
      var queues := settings.queues;
      var i := 0;
      while i < |queues|
        invariant 0 <= i <= |queues|
        invariant configuration == old(configuration) && configurationSection == old(configurationSection)
        invariant RegisterEnabled(start, catalog, policy, queues) ==
                  RegisterEnabled(Registry(queueMap, services), catalog, policy, queues[i..])
      {
        assert queues[i..][0] == queues[i] && queues[i..][1..] == queues[i + 1..];
        var queue := queues[i];
        if queue.enabled {
          if queue.consumerType !in catalog.loadable {
            return Failure(ConsumerTypeNotFound(queue.consumerType, queue.queueName));
          }
          var consumerType := catalog.loadable[queue.consumerType];
          var error := MapConsumerToQueue(consumerType, queue.queueName, queue.maxCompetingConsumers, queue.maxDeliveryAttempts);
          if error.Some? {
            return Failure(error.value);
          }
        }
        i := i + 1;
      }
      assert queues[i..] == [];
      services := services + [QueueMapSingleton(queueMap), AzureClients(settings.connectionString, QueueNames(Enabled(queues)))];
      return Success(services);
    }

    /** MapConsumerToQueue: reject a non-consumer, register it as a scoped service, then add it to the queue map. */
    method MapConsumerToQueue(consumerType: ConsumerType, queueName: string, maxCompetingConsumers: int, maxDeliveryAttempts: int)
      returns (error: Option<ConfigurationError>)
      modifies this
      ensures var m := MapConsumer(old(Registry(queueMap, services)), catalog, policy, consumerType, queueName,
                                   maxCompetingConsumers, maxDeliveryAttempts);
              Registry(queueMap, services) == m.registry && error == m.error
      ensures configuration == old(configuration) && configurationSection == old(configurationSection)
    {
      if consumerType !in catalog.consumers {
        return Some(NotAConsumer(consumerType.fullName));
      }
      services := services + [ScopedConsumer(consumerType)];
      if policy.Reject? && queueName in queueMap {
        return Some(DuplicateQueue(queueName));
      }
      queueMap := queueMap[queueName := QueueDetails(consumerType, maxCompetingConsumers, maxDeliveryAttempts)];
      return None;
    }
  }
}
