/**
 * The publish path: a cache of one lazily created sender per destination name
 * (ServiceBusSenderFactory, and the same protocol inlined in JsonPublisher), the JSON publisher
 * that sends through it, and Json2Publisher, which opens a sender per call, for contrast.
 */
module Publishing {
  import opened Wrappers
  import opened Messages

  /** The content type every published message carries. */
  const JsonContentType: string := "application/json"

  /** A ServiceBusSender: the entity it sends to and which creation produced it. */
  datatype SenderHandle = SenderHandle(entityPath: string, serial: nat)

  /** A Lazy<ServiceBusSender>: IsValueCreated is `value.Some?`. */
  datatype LazySender = LazySender(value: Option<SenderHandle>)

  /** An outgoing ServiceBusMessage. */
  datatype OutgoingMessage = OutgoingMessage(body: string, contentType: string, messageId: string)

  /** One call of SendMessageAsync: the sender used and the message handed to it. */
  datatype Send = Send(sender: SenderHandle, message: OutgoingMessage)

  /** The effect of one GetSender call on the dictionary. */
  datatype Lookup = Lookup(result: Result<SenderHandle, Exception>, senders: map<string, LazySender>, factoryCalled: bool)

  /** True when the dictionary holds a created sender for `name`. */
  predicate IsCreated(senders: map<string, LazySender>, name: string)
  {
    name in senders && senders[name].value.Some?
  }

  /**
   * GetOrAdd followed by `.Value`, and TryRemove when the value factory throws.
   * `creation` is what `_client.CreateSender(name)` would do if it were called now: the serial
   * of the new sender, or the exception it throws.
   */
  function GetOrCreate(senders: map<string, LazySender>, name: string, creation: Result<nat, Exception>): (r: Lookup)
    // the factory runs exactly when no sender has been created for the name
    ensures r.factoryCalled <==> !IsCreated(senders, name)
    // a cached sender is returned as it is and nothing changes
    ensures IsCreated(senders, name) ==> r.result == Success(senders[name].value.value) && r.senders == senders
    // a new sender is cached under the name and returned
    ensures !IsCreated(senders, name) && creation.Success? ==>
              r.result == Success(SenderHandle(name, creation.value)) && IsCreated(r.senders, name) &&
              r.senders[name].value.value == r.result.value
    // a failed creation is rethrown and evicts the entry, so the next call creates again
    ensures !IsCreated(senders, name) && creation.Failure? ==>
              r.result == Failure(creation.error) && name !in r.senders
    // entries for other names are untouched
    ensures forall n :: n != name ==> (n in r.senders <==> n in senders) && (n in senders ==> r.senders[n] == senders[n])
    // the returned sender always sends to the requested name, if the cached ones do
    ensures (forall n :: IsCreated(senders, n) ==> senders[n].value.value.entityPath == n) ==>
              (r.result.Success? ==> r.result.value.entityPath == name) &&
              (forall n :: IsCreated(r.senders, n) ==> r.senders[n].value.value.entityPath == n)
  {
    var lazy := if name in senders then senders[name] else LazySender(None);
    var added := senders[name := lazy];
    if lazy.value.Some? then Lookup(Success(lazy.value.value), senders, false)
    else match creation
      case Success(serial) => Lookup(Success(SenderHandle(name, serial)), added[name := LazySender(Some(SenderHandle(name, serial)))], true)
      case Failure(e) => Lookup(Failure(e), added - {name}, true)
  }

  /** A sequence of GetSender calls, each with its own creation outcome. */
  datatype Call = Call(name: string, creation: Result<nat, Exception>)

  /** The observable effect of a sequence of calls: results and the names the factory ran for. */
  datatype Trace = Trace(results: seq<Result<SenderHandle, Exception>>, created: seq<string>, senders: map<string, LazySender>)

  function RunCalls(senders: map<string, LazySender>, calls: seq<Call>): (t: Trace)
    ensures |t.results| == |calls|
    decreases |calls|
  {
    if calls == [] then Trace([], [], senders)
    else
      var step := GetOrCreate(senders, calls[0].name, calls[0].creation);
      var rest := RunCalls(step.senders, calls[1..]);
      Trace([step.result] + rest.results, (if step.factoryCalled then [calls[0].name] else []) + rest.created, rest.senders)
  }

  /** How often `x` occurs in `s`. */
  function Occurrences(s: seq<string>, x: string): nat
  {
    if s == [] then 0 else (if s[0] == x then 1 else 0) + Occurrences(s[1..], x)
  }

  /**
   * While creation succeeds, the factory runs at most once per name over any sequence of calls,
   * and not at all for a name that already has a sender.
   */
  lemma {:induction false} CreatedAtMostOnce(senders: map<string, LazySender>, calls: seq<Call>, name: string)
    requires forall i :: 0 <= i < |calls| ==> calls[i].creation.Success?
    ensures Occurrences(RunCalls(senders, calls).created, name) <= (if IsCreated(senders, name) then 0 else 1)
    ensures IsCreated(senders, name) ==> IsCreated(RunCalls(senders, calls).senders, name)
    ensures (exists i :: 0 <= i < |calls| && calls[i].name == name) ==> IsCreated(RunCalls(senders, calls).senders, name)
    decreases |calls|
  {
    if calls != [] {
      var step := GetOrCreate(senders, calls[0].name, calls[0].creation);
      CreatedAtMostOnce(step.senders, calls[1..], name);
      var rest := RunCalls(step.senders, calls[1..]);
      var head := if step.factoryCalled then [calls[0].name] else [];
      assert RunCalls(senders, calls).created == head + rest.created;
      OccurrencesAppend(head, rest.created, name);
      if calls[0].name == name {
        assert IsCreated(step.senders, name);
      } else {
        assert Occurrences(head, name) == 0;
        assert IsCreated(step.senders, name) == IsCreated(senders, name);
      }
      if exists i :: 0 <= i < |calls| && calls[i].name == name {
        var i :| 0 <= i < |calls| && calls[i].name == name;
        if i > 0 {
          assert calls[1..][i - 1].name == name;
        }
      }
    }
  }

  lemma {:induction false} OccurrencesAppend(a: seq<string>, b: seq<string>, x: string)
    ensures Occurrences(a + b, x) == Occurrences(a, x) + Occurrences(b, x)
  {
    if a == [] {
      assert a + b == b;
    } else {
      assert (a + b)[0] == a[0] && (a + b)[1..] == a[1..] + b;
      OccurrencesAppend(a[1..], b, x);
    }
  }

  /**
   * While creation succeeds, every successful call for one name returns the same sender:
   * the one cached by the first call for it.
   */
  lemma {:induction false} SameSenderForName(senders: map<string, LazySender>, calls: seq<Call>, name: string, i: nat, j: nat)
    requires forall k :: 0 <= k < |calls| ==> calls[k].creation.Success?
    requires i < |calls| && j < |calls| && calls[i].name == name && calls[j].name == name
    ensures RunCalls(senders, calls).results[i] == RunCalls(senders, calls).results[j]
    decreases |calls|
  {
    var step := GetOrCreate(senders, calls[0].name, calls[0].creation);
    var rest := RunCalls(step.senders, calls[1..]);
    if i > 0 && j > 0 {
      SameSenderForName(step.senders, calls[1..], name, i - 1, j - 1);
    } else if i > 0 || j > 0 {
      var k := if i > 0 then i - 1 else j - 1;
      assert calls[1..][k].name == name;
      CachedSenderReturned(step.senders, calls[1..], name, k);
    }
  }

  /** Once a sender is cached for a name, every later call for that name returns it. */
  lemma {:induction false} CachedSenderReturned(senders: map<string, LazySender>, calls: seq<Call>, name: string, k: nat)
    requires IsCreated(senders, name)
    requires k < |calls| && calls[k].name == name
    ensures RunCalls(senders, calls).results[k] == Success(senders[name].value.value)
    decreases |calls|
  {
    var step := GetOrCreate(senders, calls[0].name, calls[0].creation);
    if k > 0 {
      assert calls[1..][k - 1].name == name;
      CachedSenderReturned(step.senders, calls[1..], name, k - 1);
    }
  }

  /** A failed creation is not replayed: the next call for the name runs the factory again. */
  lemma FailureIsNotCached(senders: map<string, LazySender>, name: string, e: Exception, next: Result<nat, Exception>)
    requires !IsCreated(senders, name)
    ensures GetOrCreate(GetOrCreate(senders, name, Failure(e)).senders, name, next).factoryCalled
  {
  }

  /** The created senders of a dictionary, for disposal. */
  function CreatedSenders(senders: map<string, LazySender>): (created: set<SenderHandle>)
    // every sender a lazy entry has produced, and no other
    ensures forall n :: IsCreated(senders, n) ==> senders[n].value.value in created
    ensures forall h :: h in created ==> exists n :: IsCreated(senders, n) && senders[n].value.value == h
  {
    CreatedAmong(senders, senders.Keys)
  }

  /** The created senders stored under the given names. */
  function CreatedAmong(senders: map<string, LazySender>, names: set<string>): set<SenderHandle>
  {
    set n | n in names && IsCreated(senders, n) :: senders[n].value.value
  }

  /** No element occurs twice. */
  predicate NoDuplicates<X(==)>(s: seq<X>)
  {
    forall i, j :: 0 <= i < j < |s| ==> s[i] != s[j]
  }

  /** ServiceBusSenderFactory: the dictionary of lazy senders, with the broker's view of creations and disposals. */
  class ServiceBusSenderFactory {
    var senders: map<string, LazySender>
    /** Successful CreateSender calls per name. */
    ghost var creations: map<string, nat>
    /** DisposeAsync calls on senders, in order. */
    var disposed: seq<SenderHandle>

    /** Each name has a sender exactly when one creation succeeded for it, and never more than one. */
    ghost predicate Valid()
      reads this
    {
      && (forall n :: n in creations ==> creations[n] <= 1)
      && (forall n :: IsCreated(senders, n) <==> n in creations && creations[n] == 1)
      && (forall n :: IsCreated(senders, n) ==> senders[n].value.value.entityPath == n)
    }

    ghost function CreationCount(name: string): nat
      reads this
    {
      if name in creations then creations[name] else 0
    }

    constructor ()
      ensures Valid()
      ensures senders == map[] && creations == map[] && disposed == []
    {
      senders := map[];
      creations := map[];
      disposed := [];
    }

    /** GetSender: create at most once per name, evict and rethrow when creation fails. */
    method GetSender(name: string, creation: Result<nat, Exception>) returns (r: Result<SenderHandle, Exception>)
      requires Valid()
      modifies this
      ensures Valid()
      ensures var step := GetOrCreate(old(senders), name, creation);
              r == step.result && senders == step.senders
      ensures CreationCount(name) == old(CreationCount(name)) + (if !old(IsCreated(senders, name)) && creation.Success? then 1 else 0)
      ensures forall n :: n != name ==> CreationCount(n) == old(CreationCount(n))
      ensures r.Success? ==> r.value.entityPath == name
      ensures disposed == old(disposed)
    {
      var lazy := if name in senders then senders[name] else LazySender(None);
      senders := senders[name := lazy];
      if lazy.value.Some? {
        r := Success(lazy.value.value);
      } else if creation.Success? {
        var sender := SenderHandle(name, creation.value);
        senders := senders[name := LazySender(Some(sender))];
        creations := creations[name := 1];
        r := Success(sender);
      } else {
        senders := senders - {name};
        r := Failure(creation.error);
      }
    }

    /** DisposeCoreAsync: dispose every created sender once, skip lazies that were never created. */
    method DisposeCoreAsync(disposing: bool)
      requires Valid()
      modifies this`disposed
      ensures !disposing ==> disposed == old(disposed)
      ensures |disposed| >= |old(disposed)| && disposed[..|old(disposed)|] == old(disposed)
      ensures disposing ==> NoDuplicates(disposed[|old(disposed)|..])
      ensures disposing ==> forall h :: h in disposed[|old(disposed)|..] <==> h in CreatedSenders(senders)
    {
      if !disposing {
        return;
      }
      ghost var before := disposed;
      var remaining := senders.Keys;
      while remaining != {}
        invariant remaining <= senders.Keys
        invariant |disposed| >= |before| && disposed[..|before|] == before
        invariant NoDuplicates(disposed[|before|..])
        invariant forall h :: h in disposed[|before|..] ==> h.entityPath !in remaining
        invariant forall h :: h in disposed[|before|..] <==> h in CreatedAmong(senders, senders.Keys - remaining)
        decreases remaining
      {
        var name :| name in remaining;
        var lazy := senders[name];
        ghost var done := senders.Keys - remaining;
        assert senders.Keys - (remaining - {name}) == done + {name};
        if lazy.value.Some? {
          assert CreatedAmong(senders, done + {name}) == CreatedAmong(senders, done) + {lazy.value.value};
          ghost var prev := disposed[|before|..];
          disposed := disposed + [lazy.value.value];
          assert disposed[|before|..] == prev + [lazy.value.value];
        } else {
          assert CreatedAmong(senders, done + {name}) == CreatedAmong(senders, done);
        }
        remaining := remaining - {name};
      }
    }
  }

  /** JsonPublisher: serialise, tag, and send through the cached sender for the destination. */
  class JsonPublisher {
    const cache: ServiceBusSenderFactory
    /** The messages handed to SendMessageAsync, in order. */
    var sent: seq<Send>

    ghost predicate Valid()
      reads this, cache
    {
      cache.Valid()
    }

    constructor ()
      ensures Valid() && fresh(cache)
      ensures cache.senders == map[] && sent == []
    {
      cache := new ServiceBusSenderFactory();
      sent := [];
    }

    /**
     * PublishAsync. `creation` is the outcome CreateSender would have, `encode` is
     * JsonSerializer.Serialize, `freshId` is the new Guid's text and `sendResult` is how
     * SendMessageAsync ends.
     */
    method PublishAsync<T>(name: string, message: T, encode: T -> string, creation: Result<nat, Exception>,
                           freshId: string, sendResult: Outcome<Exception>) returns (r: Result<string, Exception>)
      requires Valid()
      modifies this, cache
      ensures Valid()
      ensures var step := GetOrCreate(old(cache.senders), name, creation);
              && cache.senders == step.senders
              && (step.result.Failure? ==> r == Failure(step.result.error) && sent == old(sent))
              && (step.result.Success? ==>
                    && sent == old(sent) + [Send(step.result.value, OutgoingMessage(encode(message), JsonContentType, freshId))]
                    && r == (if sendResult.Pass? then Success(freshId) else Failure(sendResult.error)))
      ensures r.Success? ==> |sent| > 0 && sent[|sent| - 1].message.messageId == r.value &&
                             sent[|sent| - 1].message.contentType == JsonContentType &&
                             sent[|sent| - 1].sender.entityPath == name
      ensures cache.disposed == old(cache.disposed)
    {
      var sender := cache.GetSender(name, creation);
      if sender.Failure? {
        return Failure(sender.error);
      }
      var outgoing := OutgoingMessage(encode(message), JsonContentType, freshId);
      sent := sent + [Send(sender.value, outgoing)];
      if sendResult.Fail? {
        return Failure(sendResult.error);
      }
      return Success(outgoing.messageId);
    }

    /** DisposeAsync(bool): dispose the created senders of the cache. */
    method DisposeAsync(disposing: bool)
      requires Valid()
      modifies cache`disposed
      ensures !disposing ==> cache.disposed == old(cache.disposed)
      ensures |cache.disposed| >= |old(cache.disposed)| && cache.disposed[..|old(cache.disposed)|] == old(cache.disposed)
      ensures disposing ==> NoDuplicates(cache.disposed[|old(cache.disposed)|..])
      ensures disposing ==> forall h :: h in cache.disposed[|old(cache.disposed)|..] <==> h in CreatedSenders(cache.senders)
    {
      cache.DisposeCoreAsync(disposing);
    }
  }

  /** Json2Publisher: a new sender per call, disposed at the end of the call (`await using`). */
  class Json2Publisher {
    var created: seq<SenderHandle>
    var disposed: seq<SenderHandle>
    var sent: seq<Send>

    constructor ()
      ensures created == [] && disposed == [] && sent == []
    {
      created, disposed, sent := [], [], [];
    }

    method PublishAsync<T>(name: string, message: T, encode: T -> string, creation: Result<nat, Exception>,
                           freshId: string, sendResult: Outcome<Exception>) returns (r: Result<string, Exception>)
      modifies this
      ensures creation.Failure? ==>
                r == Failure(creation.error) && created == old(created) && disposed == old(disposed) && sent == old(sent)
      ensures creation.Success? ==>
                var sender := SenderHandle(name, creation.value);
                && created == old(created) + [sender]
                && disposed == old(disposed) + [sender]
                && sent == old(sent) + [Send(sender, OutgoingMessage(encode(message), JsonContentType, freshId))]
                && r == (if sendResult.Pass? then Success(freshId) else Failure(sendResult.error))
    {
      if creation.Failure? {
        return Failure(creation.error);
      }
      var sender := SenderHandle(name, creation.value);
      created := created + [sender];
      var outgoing := OutgoingMessage(encode(message), JsonContentType, freshId);
      sent := sent + [Send(sender, outgoing)];
      disposed := disposed + [sender];
      if sendResult.Fail? {
        return Failure(sendResult.error);
      }
      return Success(outgoing.messageId);
    }
  }
}
