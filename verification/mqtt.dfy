/** The broker bridge (src/device/mqtt/mqtt.service.ts): a registry of
    message callbacks keyed by topic filter, the selection of the callbacks a
    received message is handed to, and publishing at QoS 1. The broker
    connection itself is not modelled: a publish takes the broker's answer as
    a parameter and is recorded in a log. */
module Mqtt {

  import opened Common
  import opened Strings
  import opened Topics

  /** A registered callback, named by the handler it runs. */
  datatype Handler = Handler(name: string)

  /** `MqttMessage`: what every selected callback receives. The receipt time
      is given as its ISO-8601 rendering. */
  datatype Message = Message(deviceId: string, topic: string, payload: JsonValue, timestamp: string)

  /** One callback invocation. */
  datatype Delivery = Delivery(handler: Handler, message: Message)

  /** One publish handed to the broker: the payload is the object that is
      serialised to JSON. */
  datatype Publication = Publication(topic: string, payload: Json, qos: nat)

  /** The callback registry: filters in the order they were first
      registered (the iteration order of the `Map`), and each filter's
      callbacks in registration order. */
  datatype Registry = Registry(patterns: seq<string>, callbacks: map<string, seq<Handler>>)
  {
    ghost predicate Valid() {
      (forall i, j :: 0 <= i < j < |patterns| ==> patterns[i] != patterns[j])
      && (forall p :: p in callbacks <==> p in patterns)
    }
  }

  /** The internal catch-all filter (not a broker wildcard). */
  const CatchAll: string := "*"

  /** Every publish uses QoS 1, "at least once" (section 4.3.2 of MQTT 3.1.1). */
  const AtLeastOnce: nat := 1

  /** `onMessage` on the registry: the filter's list grows by one callback;
      a filter seen for the first time is appended to the key order. */
  function Register(r: Registry, pattern: string, h: Handler): (r': Registry)
    requires r.Valid()
    ensures r'.Valid()
    ensures pattern in r'.callbacks && |r'.callbacks[pattern]| >= 1
    ensures r'.callbacks[pattern][|r'.callbacks[pattern]| - 1] == h
  {
    if pattern in r.callbacks then
      Registry(r.patterns, r.callbacks[pattern := r.callbacks[pattern] + [h]])
    else
      Registry(r.patterns + [pattern], r.callbacks[pattern := [h]])
  }

  /** Registering keeps every other filter's list as it was, and the
      filter's own earlier callbacks as a prefix of its new list. */
  lemma RegisterKeepsOthers(r: Registry, pattern: string, h: Handler)
    requires r.Valid()
    ensures var r' := Register(r, pattern, h);
            (forall p :: p in r.callbacks ==> p in r'.callbacks)
            && (forall p :: p in r.callbacks && p != pattern ==> r'.callbacks[p] == r.callbacks[p])
            && (pattern in r.callbacks ==> r'.callbacks[pattern] == r.callbacks[pattern] + [h])
  {
  }

  /** A filter selects a topic when it is the catch-all or matches it. */
  ghost predicate Selects(pattern: string, topic: string) {
    pattern == CatchAll || Matches(topic, pattern)
  }

  /** The callbacks of the first `n` filters that select `topic`, in key
      order and, within a filter, in registration order. */
  ghost function SelectedPrefix(r: Registry, topic: string, n: nat): seq<Handler>
    requires r.Valid() && n <= |r.patterns|
  {
    if n == 0 then []
    else
      var p := r.patterns[n - 1];
      assert p in r.callbacks;
      SelectedPrefix(r, topic, n - 1) + (if Selects(p, topic) then r.callbacks[p] else [])
  }

  /** All callbacks a message on `topic` is handed to. */
  ghost function Selected(r: Registry, topic: string): seq<Handler>
    requires r.Valid()
  {
    SelectedPrefix(r, topic, |r.patterns|)
  }

  /** The invocations a message causes: none for an unparseable payload,
      otherwise one per selected callback, each with the same message. */
  ghost function Deliveries(r: Registry, topic: string, payload: Option<JsonValue>, stamp: string): seq<Delivery>
    requires r.Valid()
  {
    if payload.None? then []
    else
      var m := Message(ExtractDeviceId(topic), topic, payload.value, stamp);
      var hs := Selected(r, topic);
      seq(|hs|, k requires 0 <= k < |hs| => Delivery(hs[k], m))
  }

  /** A callback is handed a message exactly when some filter it is
      registered under selects the topic. */
  lemma {:induction false} SelectedMembers(r: Registry, topic: string, n: nat, h: Handler)
    requires r.Valid() && n <= |r.patterns|
    ensures h in SelectedPrefix(r, topic, n) <==>
              exists i :: 0 <= i < n && Selects(r.patterns[i], topic) && h in r.callbacks[r.patterns[i]]
  {
    if n > 0 {
      SelectedMembers(r, topic, n - 1, h);
      var p := r.patterns[n - 1];
      if h in SelectedPrefix(r, topic, n) && h !in SelectedPrefix(r, topic, n - 1) {
        assert Selects(p, topic) && h in r.callbacks[p];
      }
    }
  }

  /** Registering one callback adds exactly one invocation of it for every
      message whose topic the filter selects, and none for the others: no
      earlier callback is lost or duplicated. */
  lemma {:induction false} RegisterAddsOneDelivery(r: Registry, pattern: string, h: Handler, topic: string)
    requires r.Valid()
    ensures multiset(Selected(Register(r, pattern, h), topic))
            == multiset(Selected(r, topic)) + (if Selects(pattern, topic) then multiset{h} else multiset{})
  {
    if pattern in r.callbacks {
      RegisterExisting(r, pattern, h, topic);
    } else {
      RegisterNew(r, pattern, h, topic);
    }
  }

  lemma RegisterExisting(r: Registry, pattern: string, h: Handler, topic: string)
    requires r.Valid() && pattern in r.callbacks
    ensures multiset(Selected(Register(r, pattern, h), topic))
            == multiset(Selected(r, topic)) + (if Selects(pattern, topic) then multiset{h} else multiset{})
  {
    var k :| 0 <= k < |r.patterns| && r.patterns[k] == pattern;
    var before := SelectedPrefix(r, topic, k);
    var own := if Selects(pattern, topic) then r.callbacks[pattern] else [];
    var extra := if Selects(pattern, topic) then [h] else [];
    var after := SelectedRange(r, topic, k + 1, |r.patterns|);
    assert Selected(r, topic) == before + own + after by {
      PrefixSplits(r, topic, k + 1, |r.patterns|);
    }
    RegisterSplits(r, pattern, h, topic, k);
    InsertCounts(before, own, extra, after);
  }

  /** Registering under the filter at `k` appends to that filter's block
      and leaves the blocks before and after it as they were. */
  lemma RegisterSplits(r: Registry, pattern: string, h: Handler, topic: string, k: nat)
    requires r.Valid() && k < |r.patterns| && r.patterns[k] == pattern
    ensures Selected(Register(r, pattern, h), topic)
            == SelectedPrefix(r, topic, k)
               + ((if Selects(pattern, topic) then r.callbacks[pattern] else []) + (if Selects(pattern, topic) then [h] else []))
               + SelectedRange(r, topic, k + 1, |r.patterns|)
  {
    RegisterGrowsBlock(r, pattern, h, topic, k);
    RegisterKeepsRange(r, pattern, h, topic, k);
    RegisteredSplits(r, pattern, h, topic, k);
  }

  /** The filters after the one registered under keep their callbacks. */
  lemma RegisterKeepsRange(r: Registry, pattern: string, h: Handler, topic: string, k: nat)
    requires r.Valid() && k < |r.patterns| && r.patterns[k] == pattern
    ensures SelectedRange(Register(r, pattern, h), topic, k + 1, |r.patterns|)
            == SelectedRange(r, topic, k + 1, |r.patterns|)
  {
    RegisterKeepsOthers(r, pattern, h);
    SameRange(r, Register(r, pattern, h), topic, k + 1, |r.patterns|);
  }

  /** `PrefixSplits` at `k + 1` on the registry after the registration. */
  lemma RegisteredSplits(r: Registry, pattern: string, h: Handler, topic: string, k: nat)
    requires r.Valid() && k < |r.patterns| && r.patterns[k] == pattern
    ensures Selected(Register(r, pattern, h), topic)
            == SelectedPrefix(Register(r, pattern, h), topic, k + 1)
               + SelectedRange(Register(r, pattern, h), topic, k + 1, |r.patterns|)
  {
    var r' := Register(r, pattern, h);
    assert |r'.patterns| == |r.patterns|;
    PrefixSplits(r', topic, k + 1, |r.patterns|);
  }

  lemma RegisterNew(r: Registry, pattern: string, h: Handler, topic: string)
    requires r.Valid() && pattern !in r.callbacks
    ensures multiset(Selected(Register(r, pattern, h), topic))
            == multiset(Selected(r, topic)) + (if Selects(pattern, topic) then multiset{h} else multiset{})
  {
    var r' := Register(r, pattern, h);
    SamePrefix(r, r', topic, |r.patterns|);
    assert Selected(r', topic)
           == SelectedPrefix(r', topic, |r.patterns|) + (if Selects(pattern, topic) then [h] else []);
  }

  /** Prefixes of two registries that agree on their first `n` filters. */
  lemma {:induction false} SamePrefix(r: Registry, r': Registry, topic: string, n: nat)
    requires r.Valid() && r'.Valid() && n <= |r.patterns| && n <= |r'.patterns|
    requires forall i :: 0 <= i < n ==> r.patterns[i] == r'.patterns[i]
    requires forall i :: 0 <= i < n ==> r.callbacks[r.patterns[i]] == r'.callbacks[r.patterns[i]]
    ensures SelectedPrefix(r, topic, n) == SelectedPrefix(r', topic, n)
  {
    if n > 0 {
      SamePrefix(r, r', topic, n - 1);
    }
  }

  /** Up to and including the filter registered under, the registration
      adds its callback at the end. */
  lemma RegisterGrowsBlock(r: Registry, pattern: string, h: Handler, topic: string, k: nat)
    requires r.Valid() && k < |r.patterns| && r.patterns[k] == pattern
    ensures SelectedPrefix(Register(r, pattern, h), topic, k + 1)
            == SelectedPrefix(r, topic, k)
               + ((if Selects(pattern, topic) then r.callbacks[pattern] else []) + (if Selects(pattern, topic) then [h] else []))
  {
    var r' := Register(r, pattern, h);
    RegisterKeepsOthers(r, pattern, h);
    SamePrefix(r, r', topic, k);
    if !Selects(pattern, topic) {
      AppendEmpty<Handler>([]);
    }
  }

  /** The callbacks of filters `lo` to `n - 1` that select `topic`. */
  ghost function SelectedRange(r: Registry, topic: string, lo: nat, n: nat): seq<Handler>
    requires r.Valid() && lo <= n <= |r.patterns|
    decreases n - lo
  {
    if n == lo then []
    else
      var p := r.patterns[n - 1];
      assert p in r.callbacks;
      SelectedRange(r, topic, lo, n - 1) + (if Selects(p, topic) then r.callbacks[p] else [])
  }

  /** The first `n` filters' callbacks are those of the first `m` followed by
      those of the filters from `m` on. */
  lemma {:induction false} PrefixSplits(r: Registry, topic: string, m: nat, n: nat)
    requires r.Valid() && m <= n <= |r.patterns|
    ensures SelectedPrefix(r, topic, n) == SelectedPrefix(r, topic, m) + SelectedRange(r, topic, m, n)
    decreases n
  {
    if n == m {
      AppendEmpty(SelectedPrefix(r, topic, m));
    } else {
      PrefixSplits(r, topic, m, n - 1);
      var p := r.patterns[n - 1];
      AppendAssoc(SelectedPrefix(r, topic, m), SelectedRange(r, topic, m, n - 1),
                  if Selects(p, topic) then r.callbacks[p] else []);
    }
  }

  /** Two registries that agree on the filters from `lo` to `n - 1` select
      the same callbacks there. */
  lemma {:induction false} SameRange(r: Registry, r': Registry, topic: string, lo: nat, n: nat)
    requires r.Valid() && r'.Valid() && lo <= n <= |r.patterns| && n <= |r'.patterns|
    requires forall i :: lo <= i < n ==> r.patterns[i] == r'.patterns[i]
    requires forall i :: lo <= i < n ==> r.callbacks[r.patterns[i]] == r'.callbacks[r.patterns[i]]
    ensures SelectedRange(r, topic, lo, n) == SelectedRange(r', topic, lo, n)
    decreases n - lo
  {
    if n > lo {
      SameRange(r, r', topic, lo, n - 1);
    }
  }

  lemma InsertCounts<T>(a: seq<T>, b: seq<T>, e: seq<T>, c: seq<T>)
    ensures multiset(a + (b + e) + c) == multiset(a + b + c) + multiset(e)
  {
  }

  lemma AppendEmpty<T>(a: seq<T>)
    ensures a + [] == a
  {
  }

  lemma AppendAssoc<T>(a: seq<T>, b: seq<T>, c: seq<T>)
    ensures (a + b) + c == a + (b + c)
  {
  }

  /** `device/{id}/cmd`: the topic a device receives its commands on. */
  function CommandTopic(deviceId: string): (t: string)
    ensures StartsWith(t, "device/" + deviceId + "/")
  {
    var prefix := "device/" + deviceId + "/";
    assert (prefix + "cmd")[..|prefix|] == prefix;
    prefix + "cmd"
  }

  /** The command topic of a device names that device again. */
  lemma CommandTopicNamesDevice(deviceId: string)
    requires Sep !in deviceId && deviceId != ""
    ensures ExtractDeviceId(CommandTopic(deviceId)) == deviceId
  {
    ExtractsDeviceLevel(deviceId, "cmd");
  }

  /** The command envelope `{command, data, timestamp}`. */
  function CommandPayload(command: string, data: JsonValue, stamp: string): (p: Json)
    ensures "command" in p && "data" in p && "timestamp" in p && |p| == 3
    ensures p["command"] == JStr(command) && p["data"] == data && p["timestamp"] == JStr(stamp)
  {
    map["command" := JStr(command), "data" := data, "timestamp" := JStr(stamp)]
  }

  class MqttService {
    /** `messageCallbacks`. */
    var registry: Registry
    /** Every publish handed to the broker, oldest first. */
    var published: seq<Publication>

    ghost predicate Valid()
      reads this
    {
      registry.Valid()
    }

    constructor()
      ensures Valid() && registry == Registry([], map[]) && published == []
    {
      registry := Registry([], map[]);
      published := [];
    }

    /** `onMessage`: register `h` under `pattern` (or `*`). */
    method OnMessage(pattern: string, h: Handler)
      requires Valid()
      modifies this
      ensures Valid()
      ensures registry == Register(old(registry), pattern, h)
      ensures published == old(published)
    {
      if pattern in registry.callbacks {
        registry := registry.(callbacks := registry.callbacks[pattern := registry.callbacks[pattern] + [h]]);
      } else {
        registry := Registry(registry.patterns + [pattern], registry.callbacks[pattern := [h]]);
      }
    }

    /** `handleMessage`: collect the callbacks of every selecting filter, in
        key order, then invoke each once with the same message. A callback
        that throws is caught on its own, so the invocations do not depend on
        the callbacks' outcomes; a payload that does not parse is `None`. */
    method HandleMessage(topic: string, payload: Option<JsonValue>, stamp: string) returns (ds: seq<Delivery>)
      requires Valid()
      ensures ds == Deliveries(registry, topic, payload, stamp)
    {
      if payload.None? {
        return [];
      }
      var message := Message(ExtractDeviceId(topic), topic, payload.value, stamp);
      var matched: seq<Handler> := [];
      var i := 0;
      while i < |registry.patterns|
        invariant 0 <= i <= |registry.patterns|
        invariant matched == SelectedPrefix(registry, topic, i)
      {
        var pattern := registry.patterns[i];
        var hit := TopicMatchesPattern(topic, pattern);
        if pattern == CatchAll || hit {
          matched := matched + registry.callbacks[pattern];
        }
        i := i + 1;
      }
      ds := [];
      var k := 0;
      while k < |matched|
        invariant 0 <= k <= |matched|
        invariant |ds| == k && forall j :: 0 <= j < k ==> ds[j] == Delivery(matched[j], message)
      {
        ds := ds + [Delivery(matched[k], message)];
        k := k + 1;
      }
    }

    /** `publishToTopic`: the payload goes to the broker at QoS 1; the
        returned outcome is the broker's answer (a failure rejects). */
    method PublishToTopic(topic: string, payload: Json, answer: PublishOutcome) returns (outcome: PublishOutcome)
      modifies this
      ensures published == old(published) + [Publication(topic, payload, AtLeastOnce)]
      ensures registry == old(registry)
      ensures outcome == answer
    {
      published := published + [Publication(topic, payload, AtLeastOnce)];
      outcome := answer;
    }

    /** `publishToDevice`: the command envelope on the device's command topic. */
    method PublishToDevice(deviceId: string, command: string, data: JsonValue, stamp: string, answer: PublishOutcome)
      returns (outcome: PublishOutcome)
      modifies this
      ensures published == old(published)
                           + [Publication(CommandTopic(deviceId), CommandPayload(command, data, stamp), AtLeastOnce)]
      ensures registry == old(registry)
      ensures outcome == answer
    {
      outcome := PublishToTopic(CommandTopic(deviceId), CommandPayload(command, data, stamp), answer);
    }
  }
}
