// The inference router of the older runtime: it walks the configured providers in order and
// returns the first completion. A provider missing from the registry is skipped silently;
// one whose client cannot be built is skipped after the fallback callback; but once a client
// is built, its completion is final, whether it succeeds or throws.
//
// What building a client and completing with it does is an oracle: a function from the
// provider's settings to a `ClientOutcome`. The optional callbacks are recorded as events.

module Router {
  import opened Wrappers
  import Messages
  import Settings
  import Capabilities

  /** What building a client for a provider, then completing with it, does. */
  datatype ClientOutcome =
    | CreateFails(error: Thrown)
    | CompleteFails(modelId: string, error: Thrown)
    | Completes(modelId: string, message: Messages.Message)

  /** A call of one of the optional callbacks. */
  datatype Event =
    | Fallback(providerId: string, error: Thrown)
    | Attempt(providerId: string, modelId: string)
    | Success(providerId: string, modelId: string)
    | Failure(providerId: string, error: Thrown)

  /** What `complete` resolves to. */
  datatype Completion = Completion(message: Messages.Message, providerId: string, modelId: string)

  /** The result of a `complete` call together with the callbacks it made, in order. */
  datatype Routed = Routed(result: Result<Completion>, events: seq<Event>)

  /** What is thrown when no client could be built: the last construction error if it was an
      `Error`, otherwise a fresh "No inference provider available". */
  function Exhausted(lastError: Option<Thrown>): (e: Thrown)
    ensures lastError.Some? && lastError.value.Error? ==> e == lastError.value
    ensures !(lastError.Some? && lastError.value.Error?) ==> e == Error("No inference provider available")
  {
    if lastError.Some? && lastError.value.Error? then lastError.value else Error("No inference provider available")
  }

  /** The rest of the walk over `providers`, with `lastError` the last construction error so far. */
  function Route(providers: seq<Settings.ProviderSettings>, known: set<string>, clients: Settings.ProviderSettings -> ClientOutcome, lastError: Option<Thrown>): Routed
    decreases |providers|
  {
    if providers == [] then Routed(Err(Exhausted(lastError)), [])
    else
      var p := providers[0];
      if p.id !in known then Route(providers[1..], known, clients, lastError)
      else match clients(p)
        case CreateFails(e) =>
          var rest := Route(providers[1..], known, clients, Some(e));
          Routed(rest.result, [Fallback(p.id, e)] + rest.events)
        case CompleteFails(m, e) => Routed(Err(e), [Attempt(p.id, m), Failure(p.id, e)])
        case Completes(m, msg) => Routed(Ok(Completion(msg, p.id, m)), [Attempt(p.id, m), Success(p.id, m)])
  }

  /** The first registered provider whose client can be built: the one whose completion decides. */
  function FirstBuilt(providers: seq<Settings.ProviderSettings>, known: set<string>, clients: Settings.ProviderSettings -> ClientOutcome): (r: Option<Settings.ProviderSettings>)
    ensures r.Some? ==> r.value in providers && r.value.id in known && !clients(r.value).CreateFails?
    decreases |providers|
  {
    if providers == [] then None
    else if providers[0].id in known && !clients(providers[0]).CreateFails? then Some(providers[0])
    else FirstBuilt(providers[1..], known, clients)
  }

  /** The last construction error among the registered providers, `start` if there is none. */
  function LastCreateError(providers: seq<Settings.ProviderSettings>, known: set<string>, clients: Settings.ProviderSettings -> ClientOutcome, start: Option<Thrown>): Option<Thrown>
    decreases |providers|
  {
    if providers == [] then start
    else if providers[0].id in known && clients(providers[0]).CreateFails? then
      LastCreateError(providers[1..], known, clients, Some(clients(providers[0]).error))
    else LastCreateError(providers[1..], known, clients, start)
  }

  /** The router's result, stated without the walk: the first provider whose client is built
      decides by its completion alone; when there is none, the last construction error (if an
      `Error`) or "No inference provider available" is thrown. */
  lemma {:induction false} RouteDecidedByFirstBuilt(providers: seq<Settings.ProviderSettings>, known: set<string>, clients: Settings.ProviderSettings -> ClientOutcome, lastError: Option<Thrown>)
    ensures var r := Route(providers, known, clients, lastError).result;
      match FirstBuilt(providers, known, clients)
      case None => r == Err(Exhausted(LastCreateError(providers, known, clients, lastError)))
      case Some(p) =>
        match clients(p)
        case CompleteFails(m, e) => r == Err(e)
        case Completes(m, msg) => r == Ok(Completion(msg, p.id, m))
        case CreateFails(_) => false
    decreases |providers|
  {
    if providers != [] {
      var p := providers[0];
      if p.id !in known {
        RouteDecidedByFirstBuilt(providers[1..], known, clients, lastError);
      } else if clients(p).CreateFails? {
        RouteDecidedByFirstBuilt(providers[1..], known, clients, Some(clients(p).error));
      }
    }
  }

  function Attempts(events: seq<Event>): nat
  {
    if events == [] then 0 else (if events[0].Attempt? then 1 else 0) + Attempts(events[1..])
  }

  /** A `complete` call completes with at most one client, and calls back only about registered
      providers of the list. */
  lemma {:induction false} RouteCompletesAtMostOnce(providers: seq<Settings.ProviderSettings>, known: set<string>, clients: Settings.ProviderSettings -> ClientOutcome, lastError: Option<Thrown>)
    ensures Attempts(Route(providers, known, clients, lastError).events) <= 1
    ensures forall e :: e in Route(providers, known, clients, lastError).events ==>
      e.providerId in known && exists p :: p in providers && p.id == e.providerId
    decreases |providers|
  {
    if providers != [] {
      var p := providers[0];
      var r := Route(providers, known, clients, lastError);
      if p.id !in known {
        RouteCompletesAtMostOnce(providers[1..], known, clients, lastError);
        assert forall q :: q in providers[1..] ==> q in providers;
      } else {
        match clients(p)
        case CreateFails(e) =>
          var rest := Route(providers[1..], known, clients, Some(e));
          RouteCompletesAtMostOnce(providers[1..], known, clients, Some(e));
          assert r.events == [Fallback(p.id, e)] + rest.events;
          assert r.events[1..] == rest.events;
          assert forall q :: q in providers[1..] ==> q in providers;
        case CompleteFails(m, e) =>
          assert [Failure(p.id, e)][1..] == [];
          assert Attempts([Failure(p.id, e)]) == 0;
          assert r.events[1..] == [Failure(p.id, e)];
        case Completes(m, msg) =>
          assert [Success(p.id, m)][1..] == [];
          assert Attempts([Success(p.id, m)]) == 0;
          assert r.events[1..] == [Success(p.id, m)];
      }
    }
  }

  class InferenceRouter {
    var providers: seq<Settings.ProviderSettings>
    const registry: Capabilities.Registry<Capabilities.InferenceProvider>

    constructor (providers: seq<Settings.ProviderSettings>, registry: Capabilities.Registry<Capabilities.InferenceProvider>)
      ensures this.providers == providers && this.registry == registry
    {
      this.providers := providers;
      this.registry := registry;
    }

    /** `updateProviders`: later calls walk the new list. */
    method UpdateProviders(providers: seq<Settings.ProviderSettings>)
      modifies this`providers
      ensures this.providers == providers
    {
      this.providers := providers;
    }

    /** `complete`: walks the providers in order as `Route` describes. */
    method Complete(clients: Settings.ProviderSettings -> ClientOutcome) returns (result: Result<Completion>, events: seq<Event>)
      ensures Routed(result, events) == Route(providers, registry.entries.entries.Keys, clients, None)
    {
      ghost var known := registry.entries.entries.Keys;
      var lastError: Option<Thrown> := None;
      events := [];
      var i := 0;
      while i < |providers|
        invariant 0 <= i <= |providers|
        invariant var rest := Route(providers[i..], known, clients, lastError);
          Routed(rest.result, events + rest.events) == Route(providers, known, clients, None)
      {
        var p := providers[i];
        assert providers[i..][0] == p && providers[i..][1..] == providers[i + 1..];
        if registry.Get(p.id).None? {
          i := i + 1;
          continue;
        }
        match clients(p) {
          case CreateFails(e) =>
            assert events + ([Fallback(p.id, e)] + Route(providers[i + 1..], known, clients, Some(e)).events)
                == (events + [Fallback(p.id, e)]) + Route(providers[i + 1..], known, clients, Some(e)).events;
            lastError := Some(e);
            events := events + [Fallback(p.id, e)];
          case CompleteFails(m, e) =>
            events := events + [Attempt(p.id, m), Failure(p.id, e)];
            return Err(e), events;
          case Completes(m, msg) =>
            events := events + [Attempt(p.id, m), Success(p.id, m)];
            return Ok(Completion(msg, p.id, m)), events;
        }
        i := i + 1;
      }
      result := Err(Exhausted(lastError));
    }
  }
}
