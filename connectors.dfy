// The connector registry: connectors (chat front-ends) by id, each with the registry's
// message handler attached while it is registered. Messages a connector emits reach
// the registry's `onMessage` tagged with the id it was registered under.

module Connectors {
  import opened Wrappers
  import JsMap
  import opened Messages

  /** What calling a connector's optional `shutdown` does. */
  datatype Shutdown = NoShutdown | ShutdownResolves | ShutdownThrows(error: Thrown)

  /** A connector as the registry sees it. `typing` says whether it offers a typing indicator. */
  datatype Connector = Connector(name: string, shutdown: Shutdown, typing: bool)

  /** The `status` of a registry action; every action here succeeds (`ok: true`). */
  datatype Status = Loaded | AlreadyLoaded | Unloaded | NotLoaded

  /** One call of the registry's `onMessage`. */
  datatype Delivery = Delivery(source: string, message: ConnectorMessage, context: MessageContext)

  /** `log` followed by the `shutdown(reason)` calls that unregistering `ids` one after another makes. */
  function ShutdownLog(log: seq<(string, string)>, ids: seq<string>, entries: map<string, Connector>, reason: string): seq<(string, string)>
    decreases |ids|
  {
    if ids == [] then log
    else if CallsShutdown(ids[0], entries) then ShutdownLog(log + [(ids[0], reason)], ids[1..], entries - {ids[0]}, reason)
    else ShutdownLog(log, ids[1..], entries - {ids[0]}, reason)
  }

  /** Unregistering `id` calls a `shutdown`: the id is present and its connector has the method. */
  predicate CallsShutdown(id: string, entries: map<string, Connector>)
  {
    id in entries && entries[id].shutdown != NoShutdown
  }

  class ConnectorRegistry {
    var connectors: JsMap.Map<string, Connector>
    var subscriptions: multiset<string>    // ids whose connector has the handler attached
    var shutdowns: seq<(string, string)>   // (id, reason) of each `shutdown` call, in order
    var delivered: seq<Delivery>           // calls of `onMessage`, in order

    ghost predicate Valid()
      reads this
    {
      connectors.Valid() && subscriptions == multiset(connectors.keys)
    }

    constructor ()
      ensures Valid() && connectors.keys == [] && shutdowns == [] && delivered == []
    {
      connectors := JsMap.Empty();
      subscriptions := multiset{};
      shutdowns := [];
      delivered := [];
    }

    /** `list`: the registered ids in registration order. */
    function List(): (ids: seq<string>)
      reads this
      requires Valid()
      ensures forall id :: id in ids <==> Has(id)
      ensures JsMap.Distinct(ids)
    {
      connectors.keys
    }

    predicate Has(id: string)
      reads this
    {
      id in connectors.entries
    }

    /** `get`: the stored connector, or null. */
    function Get(id: string): (r: Option<Connector>)
      reads this
      ensures r.Some? <==> Has(id)
      ensures r.Some? ==> r.value == connectors.entries[id]
    {
      connectors.Get(id)
    }

    /** `register`: a present id is left alone; a new one is attached once and stored. */
    method Register(id: string, connector: Connector) returns (status: Status)
      requires Valid()
      modifies this
      ensures Valid()
      ensures old(Has(id)) ==> status == AlreadyLoaded && unchanged(this)
      ensures !old(Has(id)) ==>
        && status == Loaded
        && connectors == old(connectors).Set(id, connector)
        && subscriptions == old(subscriptions) + multiset{id}
        && shutdowns == old(shutdowns) && delivered == old(delivered)
    {
      if connectors.Has(id) {
        return AlreadyLoaded;
      }
      subscriptions := subscriptions + multiset{id};   // attach
      connectors := connectors.Set(id, connector);
      status := Loaded;
    }

    /** `unregister`: detaches, calls `shutdown` if there is one (its failure is swallowed) and removes. */
    method Unregister(id: string, reason: string) returns (status: Status)
      requires Valid()
      modifies this
      ensures Valid()
      ensures !old(Has(id)) ==> status == NotLoaded && unchanged(this)
      ensures old(Has(id)) ==>
        && status == Unloaded
        && connectors == old(connectors).Delete(id)
        && subscriptions == old(subscriptions) - multiset{id}
        && (CallsShutdown(id, old(connectors.entries)) ==> shutdowns == old(shutdowns) + [(id, reason)])
        && (!CallsShutdown(id, old(connectors.entries)) ==> shutdowns == old(shutdowns))
        && delivered == old(delivered)
    {
      if !connectors.Has(id) {
        return NotLoaded;
      }
      WithoutMultiset(connectors.keys, id);
      subscriptions := subscriptions - multiset{id};   // unsubscribe
      // a throwing shutdown is logged and ignored
      if CallsShutdown(id, connectors.entries) {
        shutdowns := shutdowns + [(id, reason)];
      }
      connectors := connectors.Delete(id);
      status := Unloaded;
    }

    /** `unregisterAll`: unregisters, one at a time, every id present at the call. */
    method UnregisterAll(reason: string)
      requires Valid()
      modifies this
      ensures Valid()
      ensures connectors.keys == [] && connectors.entries == map[] && subscriptions == multiset{}
      ensures shutdowns == ShutdownLog(old(shutdowns), old(connectors.keys), old(connectors.entries), reason)
      ensures delivered == old(delivered)
    {
      var ids := connectors.keys;
      var i := 0;
      while i < |ids|
        invariant 0 <= i <= |ids|
        invariant Valid()
        invariant connectors.keys == ids[i..]
        invariant ShutdownLog(shutdowns, ids[i..], connectors.entries, reason) == ShutdownLog(old(shutdowns), ids, old(connectors.entries), reason)
        invariant delivered == old(delivered)
      {
        UnregisterNext(ids, i, reason);
        i := i + 1;
      }
      JsMap.NoKeysNoEntries(connectors);
    }

    /** One step of `UnregisterAll`: unregisters `ids[i]`, the oldest id still present. */
    method UnregisterNext(ids: seq<string>, i: nat, reason: string)
      requires i < |ids|
      requires Valid() && connectors.keys == ids[i..]
      modifies this
      ensures Valid() && connectors.keys == ids[i + 1..]
      ensures ShutdownLog(shutdowns, ids[i + 1..], connectors.entries, reason) == ShutdownLog(old(shutdowns), ids[i..], old(connectors.entries), reason)
      ensures delivered == old(delivered)
    {
      JsMap.WithoutHead(ids[i..]);
      assert ids[i] in connectors.entries;
      ShutdownLogNext(shutdowns, ids, i, connectors.entries, reason);
      var _ := Unregister(ids[i], reason);
    }

    /** A connector emits a message: it reaches `onMessage`, tagged with the connector's id,
        exactly when that id is registered (its handler is attached). */
    method Receive(id: string, message: ConnectorMessage, context: MessageContext)
      requires Valid()
      modifies this`delivered
      ensures delivered == old(delivered) + (if Has(id) then [Delivery(id, message, context)] else [])
    {
      if id in subscriptions {
        delivered := delivered + [Delivery(id, message, context)];
      }
    }
  }

  /** One step of the shutdown log, at the `i`-th id. */
  lemma ShutdownLogNext(log: seq<(string, string)>, ids: seq<string>, i: nat, entries: map<string, Connector>, reason: string)
    requires i < |ids|
    ensures CallsShutdown(ids[i], entries) ==>
      ShutdownLog(log, ids[i..], entries, reason) == ShutdownLog(log + [(ids[i], reason)], ids[i + 1..], entries - {ids[i]}, reason)
    ensures !CallsShutdown(ids[i], entries) ==>
      ShutdownLog(log, ids[i..], entries, reason) == ShutdownLog(log, ids[i + 1..], entries - {ids[i]}, reason)
  {
    assert ids[i..][0] == ids[i] && ids[i..][1..] == ids[i + 1..];
  }

  /** Removing a present id from duplicate-free keys removes one occurrence from the keys' multiset. */
  lemma {:induction false} WithoutMultiset(s: seq<string>, k: string)
    requires JsMap.Distinct(s) && k in s
    ensures multiset(JsMap.Without(s, k)) == multiset(s) - multiset{k}
  {
    if s[0] == k {
      JsMap.WithoutHead(s);
      HeadMultiset(s);
    } else {
      assert JsMap.Distinct(s[1..]);
      WithoutMultiset(s[1..], k);
      KeptHeadMultiset(s, k);
    }
  }

  lemma HeadMultiset(s: seq<string>)
    requires s != []
    ensures multiset(s[1..]) == multiset(s) - multiset{s[0]}
  {
    assert s == [s[0]] + s[1..];
  }

  lemma KeptHeadMultiset(s: seq<string>, k: string)
    requires s != [] && s[0] != k
    requires multiset(JsMap.Without(s[1..], k)) == multiset(s[1..]) - multiset{k}
    ensures multiset(JsMap.Without(s, k)) == multiset(s) - multiset{k}
  {
    JsMap.WithoutKeepsHead(s, k);
    assert s == [s[0]] + s[1..];
    ConsMultiset(s[0], k, s[1..], JsMap.Without(s[1..], k));
  }

  /** Putting a key other than `k` in front of both sides keeps "`w` is `t` less one `k`". */
  lemma ConsMultiset(a: string, k: string, t: seq<string>, w: seq<string>)
    requires a != k && multiset(w) == multiset(t) - multiset{k}
    ensures multiset([a] + w) == multiset([a] + t) - multiset{k}
  {
    assert multiset([a] + w) == multiset{a} + multiset(w);
    assert multiset([a] + t) == multiset{a} + multiset(t);
    AddRemoveCommute(a, k, multiset(t));
  }

  lemma AddRemoveCommute(a: string, k: string, m: multiset<string>)
    requires a != k
    ensures multiset{a} + (m - multiset{k}) == (multiset{a} + m) - multiset{k}
  {
    forall x
      ensures (multiset{a} + (m - multiset{k}))[x] == ((multiset{a} + m) - multiset{k})[x]
    {
    }
  }
}
