/** Whether a backend may receive traffic (cli/engine.go, engineHealthChecker). */
module HealthChecker {
  import opened Breaker
  import Cluster

  /** A backend is up when the local map does not say otherwise and, in a cluster, the
      merged view does not say otherwise either. */
  predicate UpTo(local: map<string, bool>, b: string) {
    b in local ==> local[b]
  }

  /** Whether a query about `b` answers yes: `up` is what health says, the circuit has
      the last word. */
  predicate Answers(cs: Circuits, up: set<string>, b: string, now: int) {
    b in up && AdmitsFor(cs, b, now)
  }

  /** What a query about `b` leaves behind. The breaker is not even asked about a
      backend that is down. */
  function Queried(cs: Circuits, up: set<string>, b: string, now: int): Circuits {
    if b in up then AskedFor(cs, b, now) else cs
  }

  /** A query that is refused changes nothing. */
  lemma RefusalIsFree(cs: Circuits, up: set<string>, b: string, now: int)
    requires !Answers(cs, up, b, now)
    ensures Queried(cs, up, b, now) == cs
  {
    if b in up && b in cs {
      assert Asked(cs[b], now) == cs[b];
      assert cs[b := cs[b]] == cs;
    }
  }

  /** The cluster holds an unhealthy finding about `b` that has not gone stale. */
  predicate FreshlyDown(r: Cluster.Replica, b: string, now: int) {
    && b in r.health && !r.health[b].healthy
    && (b in r.remoteAt ==> now - r.remoteAt[b] <= r.staleAfter)
  }

  class Checker {
    const registry: Registry
    const node: Cluster.Node?
    var local: map<string, bool>

    constructor (registry: Registry, node: Cluster.Node?, local: map<string, bool>)
      ensures this.registry == registry && this.node == node && this.local == local
    {
      this.registry, this.node, this.local := registry, node, local;
    }

    ghost predicate Up(b: string, now: int)
      reads this, node
    {
      UpTo(local, b) && (node != null ==> Cluster.Verdict(node.View(), b, true, now))
    }

    ghost function UpAmong(urls: seq<string>, now: int): set<string>
      reads this, node
    {
      set b | b in urls && Up(b, now)
    }

    /** For a backend of the pool the two forms agree. */
    lemma Among(urls: seq<string>, backend: string, now: int)
      requires backend in urls
      ensures Answers(registry.breakers, UpAmong(urls, now), backend, now) <==>
              Up(backend, now) && AdmitsFor(registry.breakers, backend, now)
      ensures Queried(registry.breakers, UpAmong(urls, now), backend, now) ==
              if Up(backend, now) then AskedFor(registry.breakers, backend, now) else registry.breakers
    {
    }

    method IsAvailable(backend: string, now: int) returns (ok: bool)
      modifies registry
      ensures ok == (old(Up(backend, now)) && AdmitsFor(old(registry.breakers), backend, now))
      ensures registry.breakers ==
              if old(Up(backend, now)) then AskedFor(old(registry.breakers), backend, now) else old(registry.breakers)
      ensures backend in local && !local[backend] ==> !ok && registry.breakers == old(registry.breakers)
      ensures node != null && FreshlyDown(node.View(), backend, now) ==>
        !ok && registry.breakers == old(registry.breakers)
      ensures (backend in local ==> local[backend]) && (node != null ==> !FreshlyDown(node.View(), backend, now)) ==>
        ok == (backend in old(registry.breakers) ==> Admits(old(registry.breakers)[backend], now))
    {
      if backend in local && !local[backend] {
        return false;
      }
      if node != null {
        var agreed := node.GetHealth(backend, true, now);
        if !agreed {
          return false;
        }
      }
      ok := registry.IsAvailable(backend, now);
    }
  }
}
