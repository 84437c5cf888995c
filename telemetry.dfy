/**
 * The two telemetry processors of the sample host: one rewrites a log record's attribute list so
 * that the configured attributes replace any pair with the same key, the other adds the
 * configured tags a span lacks and stops recording two kinds of noisy spans.
 */
module Telemetry {
  import opened Wrappers
  import opened Messages

  /** One key/value pair of an attribute list or a tag list. */
  type Attribute = (string, PropertyValue)

  /** The keys that occur in a pair list. */
  function Keys(s: seq<Attribute>): set<string>
  {
    set x | x in s :: x.0
  }

  /** A dictionary enumerated as a list: no key occurs twice. */
  predicate DistinctKeys(s: seq<Attribute>)
  {
    forall i, j :: 0 <= i < j < |s| ==> s[i].0 != s[j].0
  }

  /** The pairs of `s` whose key is not in `keys`, in their original order. */
  function StripKeys(s: seq<Attribute>, keys: set<string>): (r: seq<Attribute>)
    ensures |r| <= |s|
  {
    if s == [] then []
    else if s[0].0 in keys then StripKeys(s[1..], keys)
    else [s[0]] + StripKeys(s[1..], keys)
  }

  /** How many pairs of `s` carry key `k`. */
  function CountKey(s: seq<Attribute>, k: string): nat
  {
    if s == [] then 0 else (if s[0].0 == k then 1 else 0) + CountKey(s[1..], k)
  }

  /** `a` is `b` with some pairs dropped and the rest kept in order. */
  predicate SubsequenceOf(a: seq<Attribute>, b: seq<Attribute>)
    decreases |b|
  {
    if a == [] then true
    else if b == [] then false
    else if a[0] == b[0] then SubsequenceOf(a[1..], b[1..])
    else SubsequenceOf(a, b[1..])
  }

  /** The attribute list AddAttributesProcessor.OnEnd leaves behind. */
  function MergeAttributes(attrs: seq<Attribute>, configured: seq<Attribute>): (r: seq<Attribute>)
    // the configured pairs come last, all of them, in enumeration order
    ensures |configured| <= |r| <= |attrs| + |configured|
    ensures r[|r| - |configured|..] == configured
  {
    StripKeys(attrs, Keys(configured)) + configured
  }

  /** The tag list AddSpanTagsProcessor.OnEnd leaves behind: configured tags whose key is absent are appended. */
  function AddMissingTags(tags: seq<Attribute>, configured: seq<Attribute>): (r: seq<Attribute>)
    // the existing tags are kept, in order, in front of at most every configured tag
    ensures |tags| <= |r| <= |tags| + |configured|
    ensures r[..|tags|] == tags
  {
    tags + StripKeys(configured, Keys(tags))
  }

  lemma KeysAppend(a: seq<Attribute>, b: seq<Attribute>)
    ensures Keys(a + b) == Keys(a) + Keys(b)
  {
    forall k | k in Keys(a + b) ensures k in Keys(a) + Keys(b) {
      var x :| x in a + b && x.0 == k;
    }
    forall k | k in Keys(a) + Keys(b) ensures k in Keys(a + b) {
      if k in Keys(a) {
        var x :| x in a && x.0 == k;
        assert x in a + b;
      } else {
        var x :| x in b && x.0 == k;
        assert x in a + b;
      }
    }
  }

  lemma {:induction false} StripKeysAppend(a: seq<Attribute>, b: seq<Attribute>, keys: set<string>)
    ensures StripKeys(a + b, keys) == StripKeys(a, keys) + StripKeys(b, keys)
    decreases |a|
  {
    if a == [] {
      assert a + b == b;
    } else {
      assert (a + b)[0] == a[0] && (a + b)[1..] == a[1..] + b;
      StripKeysAppend(a[1..], b, keys);
    }
  }

  /** A pair survives exactly when it was there and its key is not stripped. */
  lemma {:induction false} StripKeysMember(s: seq<Attribute>, keys: set<string>, x: Attribute)
    ensures x in StripKeys(s, keys) <==> x in s && x.0 !in keys
    decreases |s|
  {
    if s != [] {
      StripKeysMember(s[1..], keys, x);
      assert s == [s[0]] + s[1..];
    }
  }

  lemma {:induction false} StripKeysKeys(s: seq<Attribute>, keys: set<string>)
    ensures Keys(StripKeys(s, keys)) == Keys(s) - keys
    decreases |s|
  {
    if s != [] {
      StripKeysKeys(s[1..], keys);
      assert s == [s[0]] + s[1..];
      KeysAppend([s[0]], s[1..]);
      if s[0].0 !in keys {
        KeysAppend([s[0]], StripKeys(s[1..], keys));
      }
    }
  }

  /** Stripping only drops pairs: the survivors keep their original relative order. */
  lemma {:induction false} StripKeysIsSubsequence(s: seq<Attribute>, keys: set<string>)
    ensures SubsequenceOf(StripKeys(s, keys), s)
    decreases |s|
  {
    if s != [] {
      StripKeysIsSubsequence(s[1..], keys);
      var r := StripKeys(s[1..], keys);
      if s[0].0 !in keys {
        assert ([s[0]] + r)[0] == s[0] && ([s[0]] + r)[1..] == r;
      } else if r != [] {
        SubsequenceDropHead(r, s);
      }
    }
  }

  lemma {:induction false} SubsequenceDropHead(r: seq<Attribute>, s: seq<Attribute>)
    requires s != [] && SubsequenceOf(r, s[1..])
    ensures SubsequenceOf(r, s)
    decreases |s|, 0
  {
    if r != [] && r[0] == s[0] {
      SubsequenceTail(r, s[1..]);
    }
  }

  lemma {:induction false} SubsequenceTail(r: seq<Attribute>, t: seq<Attribute>)
    requires r != [] && SubsequenceOf(r, t)
    ensures SubsequenceOf(r[1..], t)
    decreases |t|, 1
  {
    if r[0] != t[0] {
      SubsequenceTail(r, t[1..]);
    }
    if r[1..] != [] {
      SubsequenceDropHead(r[1..], t);
    }
  }

  lemma {:induction false} StripKeysNoOp(s: seq<Attribute>, keys: set<string>)
    requires Keys(s) !! keys
    ensures StripKeys(s, keys) == s
    decreases |s|
  {
    if s != [] {
      assert s[0] in s;
      KeysAppend([s[0]], s[1..]);
      assert s == [s[0]] + s[1..];
      StripKeysNoOp(s[1..], keys);
    }
  }

  lemma {:induction false} StripKeysAll(s: seq<Attribute>, keys: set<string>)
    requires Keys(s) <= keys
    ensures StripKeys(s, keys) == []
    decreases |s|
  {
    if s != [] {
      assert s[0] in s;
      KeysAppend([s[0]], s[1..]);
      assert s == [s[0]] + s[1..];
      StripKeysAll(s[1..], keys);
    }
  }

  lemma {:induction false} CountKeyAppend(a: seq<Attribute>, b: seq<Attribute>, k: string)
    ensures CountKey(a + b, k) == CountKey(a, k) + CountKey(b, k)
    decreases |a|
  {
    if a == [] {
      assert a + b == b;
    } else {
      assert (a + b)[0] == a[0] && (a + b)[1..] == a[1..] + b;
      CountKeyAppend(a[1..], b, k);
    }
  }

  lemma {:induction false} CountKeyStripped(s: seq<Attribute>, keys: set<string>, k: string)
    requires k in keys
    ensures CountKey(StripKeys(s, keys), k) == 0
    decreases |s|
  {
    if s != [] {
      CountKeyStripped(s[1..], keys, k);
    }
  }

  lemma {:induction false} CountKeyDistinct(s: seq<Attribute>, k: string)
    requires DistinctKeys(s) && k in Keys(s)
    ensures CountKey(s, k) == 1
    decreases |s|
  {
    assert s == [s[0]] + s[1..];
    KeysAppend([s[0]], s[1..]);
    if s[0].0 == k {
      CountKeyAbsent(s[1..], k);
    } else {
      CountKeyDistinct(s[1..], k);
    }
  }

  lemma {:induction false} CountKeyAbsent(s: seq<Attribute>, k: string)
    requires forall i :: 0 <= i < |s| ==> s[i].0 != k
    ensures CountKey(s, k) == 0
    decreases |s|
  {
    if s != [] {
      CountKeyAbsent(s[1..], k);
    }
  }

  /**
   * After the merge every configured key occurs exactly once, every pair carrying a configured key
   * is the configured pair, and the other keys keep all their pairs.
   */
  lemma MergeAttributesKeys(attrs: seq<Attribute>, configured: seq<Attribute>, k: string)
    requires DistinctKeys(configured)
    ensures k in Keys(configured) ==> CountKey(MergeAttributes(attrs, configured), k) == 1
    ensures k !in Keys(configured) ==> CountKey(MergeAttributes(attrs, configured), k) == CountKey(attrs, k)
    ensures forall x :: x in MergeAttributes(attrs, configured) && x.0 == k && k in Keys(configured) ==> x in configured
  {
    var K := Keys(configured);
    CountKeyAppend(StripKeys(attrs, K), configured, k);
    if k in K {
      CountKeyStripped(attrs, K, k);
      CountKeyDistinct(configured, k);
      forall x | x in MergeAttributes(attrs, configured) && x.0 == k ensures x in configured {
        StripKeysMember(attrs, K, x);
      }
    } else {
      CountKeyKept(attrs, K, k);
      CountKeyNotIn(configured, k);
    }
  }

  lemma {:induction false} CountKeyKept(s: seq<Attribute>, keys: set<string>, k: string)
    requires k !in keys
    ensures CountKey(StripKeys(s, keys), k) == CountKey(s, k)
    decreases |s|
  {
    if s != [] {
      CountKeyKept(s[1..], keys, k);
      if s[0].0 !in keys {
        assert ([s[0]] + StripKeys(s[1..], keys))[1..] == StripKeys(s[1..], keys);
      }
    }
  }

  lemma CountKeyNotIn(s: seq<Attribute>, k: string)
    requires k !in Keys(s)
    ensures CountKey(s, k) == 0
  {
    forall i | 0 <= i < |s| ensures s[i].0 != k {
      assert s[i] in s;
    }
    CountKeyAbsent(s, k);
  }

  /** The pairs not replaced by the configuration come first, in their original order, then the configured pairs. */
  lemma MergeAttributesOrder(attrs: seq<Attribute>, configured: seq<Attribute>)
    ensures var m := MergeAttributes(attrs, configured);
            var kept := StripKeys(attrs, Keys(configured));
            m[..|kept|] == kept && m[|kept|..] == configured && SubsequenceOf(kept, attrs)
  {
    StripKeysIsSubsequence(attrs, Keys(configured));
    var kept := StripKeys(attrs, Keys(configured));
    assert (kept + configured)[..|kept|] == kept;
    assert (kept + configured)[|kept|..] == configured;
  }

  /** Running the attribute processor a second time changes nothing. */
  lemma MergeAttributesIdempotent(attrs: seq<Attribute>, configured: seq<Attribute>)
    ensures MergeAttributes(MergeAttributes(attrs, configured), configured) == MergeAttributes(attrs, configured)
  {
    var K := Keys(configured);
    var kept := StripKeys(attrs, K);
    StripKeysAppend(kept, configured, K);
    StripKeysKeys(attrs, K);
    StripKeysNoOp(kept, K);
    StripKeysAll(configured, K);
  }

  /**
   * Tags are only ever appended: the existing ones are untouched, every configured key ends up
   * present, and an appended tag is a configured pair whose key was absent.
   */
  lemma AddMissingTagsSpec(tags: seq<Attribute>, configured: seq<Attribute>)
    ensures var r := AddMissingTags(tags, configured);
            && r[..|tags|] == tags
            && Keys(r) == Keys(tags) + Keys(configured)
            && forall x :: x in r[|tags|..] ==> x in configured && x.0 !in Keys(tags)
  {
    var added := StripKeys(configured, Keys(tags));
    var r := tags + added;
    assert r[..|tags|] == tags;
    assert r[|tags|..] == added;
    KeysAppend(tags, added);
    StripKeysKeys(configured, Keys(tags));
    forall x | x in added ensures x in configured && x.0 !in Keys(tags) {
      StripKeysMember(configured, Keys(tags), x);
    }
  }

  /** Running the tag processor a second time changes nothing. */
  lemma AddMissingTagsIdempotent(tags: seq<Attribute>, configured: seq<Attribute>)
    ensures AddMissingTags(AddMissingTags(tags, configured), configured) == AddMissingTags(tags, configured)
  {
    var r := AddMissingTags(tags, configured);
    AddMissingTagsSpec(tags, configured);
    StripKeysAll(configured, Keys(r));
    assert r + [] == r;
  }

  /** A log record; its attribute list may be null. */
  class LogRecord {
    var attributes: Option<seq<Attribute>>

    constructor(attributes: Option<seq<Attribute>>)
      ensures this.attributes == attributes
    {
      this.attributes := attributes;
    }
  }

  /** Overwrites the configured attributes on every log record. */
  class AddAttributesProcessor {
    /** The configured dictionary, in its enumeration order. */
    const attributes: seq<Attribute>

    constructor(attributes: seq<Attribute>)
      requires DistinctKeys(attributes)
      ensures this.attributes == attributes
    {
      this.attributes := attributes;
    }

    /** A null attribute list is left alone; otherwise pairs with a configured key are replaced. */
    method OnEnd(data: LogRecord)
      modifies data
      ensures old(data.attributes).None? ==> data.attributes == old(data.attributes)
      ensures old(data.attributes).Some? ==> data.attributes == Some(MergeAttributes(old(data.attributes).value, attributes))
    {
      if data.attributes.None? {
        return;
      }
      var orig := data.attributes.value;
      var keys := Keys(attributes);
      var attrs := orig;
      var i := |attrs| - 1;
      // remove, from the back, every pair whose key is configured
      while i >= 0
        invariant -1 <= i < |orig|
        invariant attrs == orig[..i + 1] + StripKeys(orig[i + 1..], keys)
      {
        assert orig[i..][0] == orig[i] && orig[i..][1..] == orig[i + 1..];
        assert orig[..i + 1] == orig[..i] + [orig[i]];
        if attrs[i].0 in keys {
          attrs := attrs[..i] + attrs[i + 1..];
        }
        i := i - 1;
      }
      assert orig[0..] == orig;
      var stripped := attrs;
      var j := 0;
      // append the configured pairs
      while j < |attributes|
        invariant 0 <= j <= |attributes|
        invariant attrs == stripped + attributes[..j]
      {
        assert attributes[..j + 1] == attributes[..j] + [attributes[j]];
        attrs := attrs + [attributes[j]];
        j := j + 1;
      }
      assert attributes[..j] == attributes;
      data.attributes := Some(attrs);
    }
  }

  datatype StatusCode = Unset | Ok | Error

  /** The span fields the tag processor reads or writes. */
  class Activity {
    var status: StatusCode
    var statusDescription: Option<string>
    var displayName: string
    var sourceName: string
    var traceFlags: bv8
    var tags: seq<Attribute>

    constructor(status: StatusCode, statusDescription: Option<string>, displayName: string, sourceName: string,
                traceFlags: bv8, tags: seq<Attribute>)
      ensures this.status == status && this.statusDescription == statusDescription
      ensures this.displayName == displayName && this.sourceName == sourceName
      ensures this.traceFlags == traceFlags && this.tags == tags
    {
      this.status := status;
      this.statusDescription := statusDescription;
      this.displayName := displayName;
      this.sourceName := sourceName;
      this.traceFlags := traceFlags;
      this.tags := tags;
    }
  }

  /** ActivityTraceFlags.Recorded. */
  const Recorded: bv8 := 1

  /** `flags &= ~Recorded`: the Recorded bit is off and every other bit is as it was. */
  function ClearRecorded(flags: bv8): (r: bv8)
    ensures r & Recorded == 0
    ensures r | Recorded == flags | Recorded
  {
    flags & !Recorded
  }

  /** Clearing the bit twice is clearing it once. */
  lemma ClearRecordedIdempotent(flags: bv8)
    ensures ClearRecorded(ClearRecorded(flags)) == ClearRecorded(flags)
  {
  }

  /** `sub` occurs in `s` starting at index `i`. */
  predicate OccursAt(s: string, sub: string, i: nat)
  {
    i + |sub| <= |s| && s[i..i + |sub|] == sub
  }

  /** String.Contains with ordinal comparison. */
  predicate Contains(s: string, sub: string)
  {
    exists i: nat | i <= |s| :: OccursAt(s, sub, i)
  }

  /** The noisy TaskCanceledException receive span the Azure SDK emits. */
  predicate IsCanceledReceive(status: StatusCode, statusDescription: Option<string>, displayName: string)
  {
    status == Error && statusDescription.Some? && Contains(statusDescription.value, "TaskCanceledException")
    && displayName == "ServiceBusReceiver.Receive"
  }

  /** The per-message span of the Service Bus message source. */
  predicate IsMessageSpan(sourceName: string, displayName: string)
  {
    sourceName == "Azure.Messaging.ServiceBus.Message" && displayName == "Message"
  }

  /** The cancelled-receive rule on sample spans: it needs the error status, the description and the receive name. */
  lemma CanceledReceiveRule()
    ensures IsCanceledReceive(Error, Some("TaskCanceledException"), "ServiceBusReceiver.Receive")
    ensures !IsCanceledReceive(Ok, Some("TaskCanceledException"), "ServiceBusReceiver.Receive")
    ensures !IsCanceledReceive(Error, None, "ServiceBusReceiver.Receive")
    ensures !IsCanceledReceive(Error, Some("TaskCanceledException"), "ServiceBusReceiver.Complete")
  {
    var d := "TaskCanceledException";
    assert d[0..|d|] == d;
    assert OccursAt(d, d, 0);
  }

  /** The message-span rule needs both the message source and the "Message" name. */
  lemma MessageSpanRule()
    ensures IsMessageSpan("Azure.Messaging.ServiceBus.Message", "Message")
    ensures !IsMessageSpan("Azure.Messaging.ServiceBus", "Message")
    ensures !IsMessageSpan("Azure.Messaging.ServiceBus.Message", "ServiceBusReceiver.Receive")
  {
  }

  /** Adds the configured tags missing from each span and suppresses two noisy span shapes. */
  class AddSpanTagsProcessor {
    /** The configured dictionary, in its enumeration order. */
    const attributes: seq<Attribute>

    constructor(attributes: seq<Attribute>)
      requires DistinctKeys(attributes)
      ensures this.attributes == attributes
    {
      this.attributes := attributes;
    }

    method OnEnd(data: Activity)
      requires DistinctKeys(attributes)
      modifies data
      ensures data.traceFlags ==
                if IsCanceledReceive(old(data.status), old(data.statusDescription), old(data.displayName))
                   || IsMessageSpan(old(data.sourceName), old(data.displayName))
                then ClearRecorded(old(data.traceFlags)) else old(data.traceFlags)
      ensures data.tags == AddMissingTags(old(data.tags), attributes)
      ensures data.status == old(data.status) && data.statusDescription == old(data.statusDescription)
      ensures data.displayName == old(data.displayName) && data.sourceName == old(data.sourceName)
    {
      Suppress(data);
      AddTags(data);
    }

    /** The two suppression rules, each clearing the Recorded flag. */
    method Suppress(data: Activity)
      modifies data`traceFlags
      ensures data.traceFlags ==
                if IsCanceledReceive(data.status, data.statusDescription, data.displayName)
                   || IsMessageSpan(data.sourceName, data.displayName)
                then ClearRecorded(old(data.traceFlags)) else old(data.traceFlags)
    {
      if IsCanceledReceive(data.status, data.statusDescription, data.displayName) {
        data.traceFlags := ClearRecorded(data.traceFlags);
      }
      if IsMessageSpan(data.sourceName, data.displayName) {
        ClearRecordedIdempotent(old(data.traceFlags));
        data.traceFlags := ClearRecorded(data.traceFlags);
      }
    }

    /** The SetTag loop: each configured tag is set only when no tag has its key. */
    method AddTags(data: Activity)
      requires DistinctKeys(attributes)
      modifies data`tags
      ensures data.tags == AddMissingTags(old(data.tags), attributes)
    {
      ghost var orig := data.tags;
      var j := 0;
      while j < |attributes|
        invariant 0 <= j <= |attributes|
        invariant data.tags == orig + StripKeys(attributes[..j], Keys(orig))
      {
        var (key, value) := attributes[j];
        AddTagStep(orig, attributes, j);
        if !HasKey(data.tags, key) {
          data.tags := data.tags + [(key, value)];
        }
        j := j + 1;
      }
      assert attributes[..j] == attributes;
    }
  }

  /** One step of the tag loop: the key is missing now exactly when it was missing at the start. */
  lemma AddTagStep(orig: seq<Attribute>, c: seq<Attribute>, j: nat)
    requires DistinctKeys(c) && j < |c|
    ensures var t := orig + StripKeys(c[..j], Keys(orig));
            && (c[j].0 in Keys(t) <==> c[j].0 in Keys(orig))
            && orig + StripKeys(c[..j + 1], Keys(orig)) == if c[j].0 in Keys(orig) then t else t + [c[j]]
  {
    var K := Keys(orig);
    var added := StripKeys(c[..j], K);
    assert c[..j + 1] == c[..j] + [c[j]];
    StripKeysAppend(c[..j], [c[j]], K);
    KeysAppend(orig, added);
    StripKeysKeys(c[..j], K);
    assert c[j].0 !in Keys(c[..j]) by {
      forall x | x in c[..j] ensures x.0 != c[j].0 {
        var m :| 0 <= m < j && c[m] == x;
      }
    }
  }

  /** `tags.Any(t => t.Key == key)`. */
  function HasKey(tags: seq<Attribute>, key: string): (b: bool)
    ensures b <==> key in Keys(tags)
  {
    exists i :: 0 <= i < |tags| && tags[i].0 == key
  }
}
