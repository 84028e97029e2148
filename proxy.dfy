/** pkg/proxy/proxy.go: the registry of proxy handler factories. */
module Proxy {
  import opened Base

  /** A HandlerFactory; its Init, which builds the http.Handler, is outside
      the model, so a factory is known by an identity. */
  datatype HandlerFactory = HandlerFactory(id: nat)

  const ErrSampleNotFound := Message("sample proxy handler is not found")
  const ErrNoHandler := Message("no proxy handler is prepared")

  /** proxyHandlerFactories: the registered factories by name. */
  class Registry {
    var factories: map<string, HandlerFactory>

    constructor ()
      ensures factories == map[]
    {
      factories := map[];
    }

    /** Register: the first registration of a name wins; a later one is ignored. */
    method Register(name: string, factory: HandlerFactory)
      modifies this
      ensures name in old(factories) ==> factories == old(factories)
      ensures name !in old(factories) ==> factories == old(factories)[name := factory]
      ensures forall n :: n in old(factories) ==> n in factories && factories[n] == old(factories)[n]
    {
      if name in factories {
        return;
      }
      factories := factories[name := factory];
    }

    /** GetProxyHandler: the factory whose Init builds the handler. With the
        sample handler enabled it is the one named "sample"; otherwise it is
        the first one met, in the map's unspecified order, not named "sample". */
    method GetProxyHandler(enableSample: bool) returns (r: Result<HandlerFactory>)
      ensures enableSample ==>
        r == (if "sample" in factories then Ok(factories["sample"]) else Err(ErrSampleNotFound))
      ensures !enableSample ==> (r.Ok? <==> exists n :: n in factories && n != "sample")
      ensures !enableSample && r.Ok? ==> exists n :: n in factories && n != "sample" && factories[n] == r.value
      ensures !enableSample && r.Err? ==> r.error == ErrNoHandler
    {
      if enableSample {
        if "sample" in factories {
          return Ok(factories["sample"]);
        }
        return Err(ErrSampleNotFound);
      }
      var unvisited := factories.Keys;
      while unvisited != {}
        invariant unvisited <= factories.Keys
        invariant forall n :: n in factories && n !in unvisited ==> n == "sample"
        decreases unvisited
      {
        var name :| name in unvisited;
        if name != "sample" {
          return Ok(factories[name]);
        }
        unvisited := unvisited - {name};
      }
      return Err(ErrNoHandler);
    }
  }
}
