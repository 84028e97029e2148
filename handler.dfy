/** pkg/proxy/dev/handler.go: the proxy's own handler. It sends each request
    to the remote proxy while the checker reports the cluster healthy and to
    the local responder otherwise; a middleware counts resource-usage
    requests; another admits a bounded number of requests at a time. */
module Handler {
  import opened Strs
  import opened Http
  import Common
  import Checker

  /** A handler outside the model: what it writes for a request. */
  type HandlerFunc = Request -> Reply

  /** devFactory: its remote proxy, whose health is its checker's, and the
      local responder. */
  class DevFactory {
    const checker: Checker.Checker
    const remote: HandlerFunc
    const local: HandlerFunc

    constructor (checker: Checker.Checker, remote: HandlerFunc, local: HandlerFunc)
      ensures this.checker == checker && this.remote == remote && this.local == local
    {
      this.checker := checker;
      this.remote := remote;
      this.local := local;
    }

    /** ServeHTTP: exactly one of the two proxies serves the request. */
    method ServeHTTP(req: Request) returns (reply: Reply)
      ensures checker.IsHealthy() ==> reply == remote(req)
      ensures !checker.IsHealthy() ==> reply == local(req)
    {
      if checker.IsHealthy() {
        return remote(req);
      }
      reply := local(req);
    }
  }

  /** A resource-usage request: its selector carries "type=resourceusage". */
  predicate IsResourceUsage(req: Request) {
    Contains(req.selector, Common.ResourceLabel)
  }

  /** How many of the requests are resource-usage requests. */
  function CountResourceUsage(reqs: seq<Request>): (n: nat)
    ensures n <= |reqs|
    decreases |reqs|
  {
    if |reqs| == 0 then 0
    else CountResourceUsage(reqs[..|reqs| - 1]) + (if IsResourceUsage(reqs[|reqs| - 1]) then 1 else 0)
  }

  /** Counting two runs of requests adds up. */
  lemma {:induction false} CountAppend(a: seq<Request>, b: seq<Request>)
    ensures CountResourceUsage(a + b) == CountResourceUsage(a) + CountResourceUsage(b)
    decreases |b|
  {
    if |b| > 0 {
      assert (a + b)[..|a + b| - 1] == a + b[..|b| - 1];
      CountAppend(a, b[..|b| - 1]);
    } else {
      assert a + b == a;
    }
  }

  /** countReq: a counter of the resource-usage requests served. */
  class RequestCounter {
    var count: nat
    const handler: HandlerFunc
    /** The requests served so far. */
    ghost var served: seq<Request>

    ghost predicate Valid()
      reads this
    {
      count == CountResourceUsage(served)
    }

    constructor (handler: HandlerFunc)
      ensures Valid() && count == 0 && served == [] && this.handler == handler
    {
      count := 0;
      this.handler := handler;
      served := [];
    }

    /** One request: counted when it is a resource-usage request, and always
        passed to the wrapped handler. */
    method Serve(req: Request) returns (reply: Reply)
      requires Valid()
      modifies this`count, this`served
      ensures Valid() && served == old(served) + [req]
      ensures count == old(count) + (if IsResourceUsage(req) then 1 else 0)
      ensures reply == handler(req)
    {
      if Contains(req.selector, Common.ResourceLabel) {
        count := count + 1;
      }
      served := served + [req];
      assert served[..|served| - 1] == old(served);
      reply := handler(req);
    }
  }

  /** WithMaxInFlightLimit: a buffered channel of capacity limit used as an
      occupancy counter; with limit <= 0 the channel is nil and never admits. */
  class InFlightLimiter {
    const limit: int
    var inFlight: nat
    const handler: HandlerFunc

    /** Occupancy never exceeds the limit. */
    ghost predicate Valid()
      reads this
    {
      if limit > 0 then inFlight <= limit else inFlight == 0
    }

    constructor (handler: HandlerFunc, limit: int)
      ensures Valid() && inFlight == 0 && this.limit == limit && this.handler == handler
    {
      this.handler := handler;
      this.limit := limit;
      inFlight := 0;
    }

    /** The non-blocking send: admitted exactly while a slot is free. */
    method Admit() returns (ok: bool)
      requires Valid()
      modifies this`inFlight
      ensures Valid()
      ensures ok <==> limit > 0 && old(inFlight) < limit
      ensures inFlight == if ok then old(inFlight) + 1 else old(inFlight)
    {
      if limit > 0 && inFlight < limit {
        inFlight := inFlight + 1;
        return true;
      }
      return false;
    }

    /** The deferred receive of an admitted request. */
    method Release()
      requires Valid() && inFlight > 0
      modifies this`inFlight
      ensures Valid() && inFlight == old(inFlight) - 1
    {
      inFlight := inFlight - 1;
    }

    /** One request: served by the wrapped handler when admitted, answered
        429 without reaching it otherwise. */
    method Serve(req: Request) returns (reply: Reply)
      requires Valid()
      modifies this`inFlight
      ensures Valid() && inFlight == old(inFlight)
      ensures reply == if limit > 0 && old(inFlight) < limit then handler(req) else HeaderOnly(429)
    {
      var admitted := Admit();
      if !admitted {
        return HeaderOnly(429);
      }
      reply := handler(req);
      Release();
    }
  }
}
