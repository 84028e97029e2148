/** pkg/proxy/dev/checker.go: the health checker of the upstream API server.
    Its state is whether the cluster is healthy and when that was last
    recorded: a healthy probe always refreshes the time, an unhealthy probe
    only on the transition from healthy. The probe itself and the clock are
    inputs; the ten-second timer loop that calls check is not modelled. */
module Checker {

  /** clusterHealthy and lastTime, with time as an integer clock reading. */
  datatype HealthState = HealthState(healthy: bool, lastTime: int)

  /** One check with probe outcome ok at time now. */
  function Probe(s: HealthState, ok: bool, now: int): (r: HealthState)
    ensures r.healthy == ok
    ensures ok ==> r.lastTime == now
    ensures !ok && s.healthy ==> r.lastTime == now
    ensures !ok && !s.healthy ==> r == s
  {
    if ok then HealthState(true, now)
    else if s.healthy then HealthState(false, now)
    else s
  }

  /** A run of checks, each a probe outcome and the time it was made. */
  function Run(s: HealthState, probes: seq<(bool, int)>): HealthState
    decreases |probes|
  {
    if |probes| == 0 then s
    else Run(Probe(s, probes[0].0, probes[0].1), probes[1..])
  }

  /** After any run of checks, the state reports the latest probe. */
  lemma {:induction false} LastProbeWins(s: HealthState, probes: seq<(bool, int)>)
    requires |probes| > 0
    ensures Run(s, probes).healthy == probes[|probes| - 1].0
    decreases |probes|
  {
    if |probes| > 1 {
      LastProbeWins(Probe(s, probes[0].0, probes[0].1), probes[1..]);
    }
  }

  /** Failed probes while unhealthy change nothing: lastTime keeps the time
      the cluster became unhealthy. */
  lemma {:induction false} FailuresKeepUnhealthyState(s: HealthState, probes: seq<(bool, int)>)
    requires !s.healthy
    requires forall i :: 0 <= i < |probes| ==> !probes[i].0
    ensures Run(s, probes) == s
    decreases |probes|
  {
    if |probes| > 0 {
      FailuresKeepUnhealthyState(s, probes[1..]);
    }
  }

  /** checker: the remote server's health, as the checks have left it. */
  class Checker {
    var clusterHealthy: bool
    var lastTime: int

    /** NewChecker: unhealthy, with lastTime the construction time. */
    constructor (now: int)
      ensures !clusterHealthy && lastTime == now
    {
      clusterHealthy := false;
      lastTime := now;
    }

    function State(): HealthState
      reads this
    {
      HealthState(clusterHealthy, lastTime)
    }

    /** isHealthy */
    function IsHealthy(): (b: bool)
      reads this
      ensures b == State().healthy
    {
      clusterHealthy
    }

    /** setHealthy */
    method SetHealthy(healthy: bool)
      modifies this`clusterHealthy
      ensures clusterHealthy == healthy
    {
      clusterHealthy := healthy;
    }

    /** markAsHealthy */
    method MarkAsHealthy(now: int)
      modifies this
      ensures clusterHealthy && lastTime == now
    {
      SetHealthy(true);
      lastTime := now;
    }

    /** markAsUnhealthy: only a healthy checker changes. */
    method MarkAsUnhealthy(now: int)
      modifies this
      ensures old(clusterHealthy) ==> !clusterHealthy && lastTime == now
      ensures !old(clusterHealthy) ==> clusterHealthy == old(clusterHealthy) && lastTime == old(lastTime)
    {
      if IsHealthy() {
        SetHealthy(false);
        lastTime := now;
      }
    }

    /** check with the probe's outcome ok at time now. */
    method Check(ok: bool, now: int)
      modifies this
      ensures State() == Probe(old(State()), ok, now)
    {
      if !ok {
        MarkAsUnhealthy(now);
        return;
      }
      MarkAsHealthy(now);
    }
  }
}
