// The plugin event queue of the newer runtime: plugins emit events, which are queued in
// emission order until the engine drains them, and are handed at once to every listener
// registered at that moment. Listeners are identified by name; a call of a listener is
// recorded as a delivery, and whether that call returns or throws is a parameter (`hear`).
// Event ids and timestamps come from outside and are parameters.

module PluginEvents {
  import opened Wrappers
  import JsMap
  import Json

  /** Who emitted an event. */
  datatype Source = Source(pluginId: string, instanceId: string)

  /** What a plugin emits: a type and an optional payload. */
  datatype EventInput = EventInput(kind: string, payload: Option<Json.Value>)

  /** A queued event. */
  datatype PluginEvent = PluginEvent(id: string, pluginId: string, instanceId: string, kind: string, payload: Option<Json.Value>, createdAt: string)

  /** One call of a listener with an event. */
  datatype Delivery = Delivery(listener: string, event: PluginEvent)

  /** The calls `enqueue` makes: every listener, in registration order, with the event. */
  function Fanout(listeners: seq<string>, event: PluginEvent): (r: seq<Delivery>)
    ensures |r| == |listeners|
    ensures forall i :: 0 <= i < |r| ==> r[i] == Delivery(listeners[i], event)
  {
    if listeners == [] then [] else [Delivery(listeners[0], event)] + Fanout(listeners[1..], event)
  }

  /** A listener receives an event exactly when it is registered at the time of the `enqueue`. */
  lemma FanoutReaches(listeners: seq<string>, event: PluginEvent, listener: string)
    ensures Delivery(listener, event) in Fanout(listeners, event) <==> listener in listeners
  {
    var r := Fanout(listeners, event);
    if listener in listeners {
      var i :| 0 <= i < |listeners| && listeners[i] == listener;
      assert r[i] == Delivery(listener, event);
    }
  }

  /** After its unsubscribe function ran, a listener is called by no later `enqueue`. */
  lemma UnsubscribedHearsNothing(listeners: seq<string>, listener: string, event: PluginEvent)
    requires JsMap.Distinct(listeners)
    ensures forall d :: d in Fanout(JsMap.SetDelete(listeners, listener), event) ==> d.listener != listener
  {
    var r := Fanout(JsMap.SetDelete(listeners, listener), event);
    forall d | d in r ensures d.listener != listener {
      var i :| 0 <= i < |r| && r[i] == d;
      assert JsMap.SetDelete(listeners, listener)[i] in JsMap.Elements(JsMap.SetDelete(listeners, listener));
    }
  }


  /** What a fan-out did: the listener calls made, and how the loop ended. */
  datatype Heard = Heard(calls: seq<Delivery>, outcome: Outcome)

  /** The `for` loop of `enqueue`: the listeners in registration order, up to and including the
      first whose call throws; that throw ends the loop and leaves `enqueue`. */
  function FanoutUntilThrow(listeners: seq<string>, event: PluginEvent, hear: Delivery -> Outcome): Heard
  {
    if listeners == [] then Heard([], Done)
    else
      var d := Delivery(listeners[0], event);
      if hear(d).Failed? then Heard([d], hear(d))
      else
        var rest := FanoutUntilThrow(listeners[1..], event, hear);
        Heard([d] + rest.calls, rest.outcome)
  }

  /** The loop reaches every listener exactly when none throws; otherwise it stops at the first
      that throws, after calling every listener before it, and rethrows that listener's error. */
  lemma FanoutStopsAtThrow(listeners: seq<string>, event: PluginEvent, hear: Delivery -> Outcome)
    ensures var h := FanoutUntilThrow(listeners, event, hear);
      && h.calls <= Fanout(listeners, event)
      && (h.outcome.Done? <==> forall i :: 0 <= i < |listeners| ==> hear(Delivery(listeners[i], event)).Done?)
      && (h.outcome.Done? ==> h.calls == Fanout(listeners, event))
      && (h.outcome.Failed? ==>
            && h.calls != []
            && hear(h.calls[|h.calls| - 1]) == h.outcome
            && forall i :: 0 <= i < |h.calls| - 1 ==> hear(h.calls[i]).Done?)
  {
    FanoutDoneIffNoThrow(listeners, event, hear);
    FanoutFailedShape(listeners, event, hear);
  }

  /** The calls made are a prefix of the full fan-out; all of it exactly when none throws. */
  lemma {:induction false} FanoutDoneIffNoThrow(listeners: seq<string>, event: PluginEvent, hear: Delivery -> Outcome)
    ensures var h := FanoutUntilThrow(listeners, event, hear);
      && h.calls <= Fanout(listeners, event)
      && (h.outcome.Done? <==> forall i :: 0 <= i < |listeners| ==> hear(Delivery(listeners[i], event)).Done?)
      && (h.outcome.Done? ==> h.calls == Fanout(listeners, event))
    decreases |listeners|
  {
    if listeners != [] {
      var d := Delivery(listeners[0], event);
      assert Fanout(listeners, event) == [d] + Fanout(listeners[1..], event);
      if hear(d).Done? {
        FanoutDoneIffNoThrow(listeners[1..], event, hear);
        var h := FanoutUntilThrow(listeners, event, hear);
        if h.outcome.Done? {
          forall i | 0 <= i < |listeners| ensures hear(Delivery(listeners[i], event)).Done? {
            if i > 0 { assert listeners[i] == listeners[1..][i - 1]; }
          }
        } else {
          var k :| 0 <= k < |listeners[1..]| && hear(Delivery(listeners[1..][k], event)).Failed?;
          assert listeners[1..][k] == listeners[k + 1];
        }
      }
    }
  }

  /** A fan-out that throws ends with the call that threw, after calls that all returned. */
  lemma {:induction false} FanoutFailedShape(listeners: seq<string>, event: PluginEvent, hear: Delivery -> Outcome)
    ensures var h := FanoutUntilThrow(listeners, event, hear);
      h.outcome.Failed? ==>
        && h.calls != []
        && hear(h.calls[|h.calls| - 1]) == h.outcome
        && forall i :: 0 <= i < |h.calls| - 1 ==> hear(h.calls[i]).Done?
    decreases |listeners|
  {
    if listeners != [] {
      var d := Delivery(listeners[0], event);
      if hear(d).Done? {
        FanoutFailedShape(listeners[1..], event, hear);
        var rest := FanoutUntilThrow(listeners[1..], event, hear);
        var h := FanoutUntilThrow(listeners, event, hear);
        if h.outcome.Failed? {
          forall i | 0 <= i < |h.calls| - 1 ensures hear(h.calls[i]).Done? {
            if i > 0 { assert h.calls[i] == rest.calls[i - 1]; }
          }
        }
      }
    }
  }

  class PluginEventQueue {
    var queue: seq<PluginEvent>
    var listeners: seq<string>        // a `Set`: distinct, in registration order
    var delivered: seq<Delivery>      // listener calls, in order

    ghost predicate Valid()
      reads this
    {
      JsMap.Distinct(listeners)
    }

    constructor ()
      ensures Valid() && queue == [] && listeners == [] && delivered == []
    {
      queue := [];
      listeners := [];
      delivered := [];
    }

    /** `emit`: builds the event from the source and the input, enqueues it and returns it;
        a listener that throws makes `emit` throw after the event was queued. */
    method Emit(source: Source, input: EventInput, id: string, createdAt: string, hear: Delivery -> Outcome)
      returns (event: PluginEvent, outcome: Outcome)
      requires Valid()
      modifies this`queue, this`delivered
      ensures Valid()
      ensures event == PluginEvent(id, source.pluginId, source.instanceId, input.kind, input.payload, createdAt)
      ensures queue == old(queue) + [event]
      ensures delivered == old(delivered) + FanoutUntilThrow(listeners, event, hear).calls
      ensures outcome == FanoutUntilThrow(listeners, event, hear).outcome
    {
      event := PluginEvent(id, source.pluginId, source.instanceId, input.kind, input.payload, createdAt);
      outcome := Enqueue(event, hear);
    }

    /** `enqueue`: appends at the tail, then calls the registered listeners in order; the first
        that throws ends the loop, and its error leaves `enqueue`. */
    method Enqueue(event: PluginEvent, hear: Delivery -> Outcome) returns (outcome: Outcome)
      requires Valid()
      modifies this`queue, this`delivered
      ensures Valid()
      ensures queue == old(queue) + [event]
      ensures delivered == old(delivered) + FanoutUntilThrow(listeners, event, hear).calls
      ensures outcome == FanoutUntilThrow(listeners, event, hear).outcome
    {
      queue := queue + [event];
      var i := 0;
      while i < |listeners|
        invariant 0 <= i <= |listeners|
        invariant queue == old(queue) + [event]
        invariant old(delivered) + FanoutUntilThrow(listeners, event, hear).calls
          == delivered + FanoutUntilThrow(listeners[i..], event, hear).calls
        invariant FanoutUntilThrow(listeners, event, hear).outcome == FanoutUntilThrow(listeners[i..], event, hear).outcome
      {
        var d := Delivery(listeners[i], event);
        assert listeners[i..][1..] == listeners[i + 1..];
        delivered := delivered + [d];
        if hear(d).Failed? {
          return hear(d);
        }
        i := i + 1;
      }
      return Done;
    }

    /** `drain`: every queued event, in emission order; the queue is left empty. */
    method Drain() returns (drained: seq<PluginEvent>)
      modifies this`queue
      ensures drained == old(queue) && queue == []
    {
      if |queue| == 0 {
        return [];
      }
      drained := queue;
      queue := [];
    }

    /** `size`: the number of queued, undrained events. */
    function Size(): (n: nat)
      reads this
      ensures n == |queue|
    {
      |queue|
    }

    /** `onEvent`: registers the listener; `Unsubscribe` is the function it returns. */
    method OnEvent(listener: string)
      requires Valid()
      modifies this`listeners
      ensures Valid() && listeners == JsMap.SetAdd(old(listeners), listener)
    {
      listeners := JsMap.SetAdd(listeners, listener);
    }

    method Unsubscribe(listener: string)
      requires Valid()
      modifies this`listeners
      ensures Valid() && listeners == JsMap.SetDelete(old(listeners), listener)
    {
      listeners := JsMap.SetDelete(listeners, listener);
    }
  }
}
