/** The object the proxy talks to (cli/engine.go, swappable): every call goes to the
    balancer, the health checker and the breakers of the current generation. Each method
    is proved to be the step of the machine in which the runs are studied. */
module Swappable {
  import opened HealthChecker
  import opened Balancer
  import opened Engine
  import opened Gateway

  /** The balancer of a generation. */
  datatype Strategy =
    | ByRoundRobin(rr: RoundRobin)
    | ByWeight(wrr: WeightedRoundRobin)
    | ByLeast(lc: LeastConnections)
    | ByChance(rnd: Random)
    | ByAddress(iph: IPHash)

  function Part(s: Strategy): object {
    match s
    case ByRoundRobin(rr) => rr
    case ByWeight(wrr) => wrr
    case ByLeast(lc) => lc
    case ByChance(rnd) => rnd
    case ByAddress(iph) => iph
  }

  /** The URLs the balancer goes through. */
  function Listed(s: Strategy): seq<string> {
    match s
    case ByRoundRobin(rr) => rr.backends
    case ByWeight(wrr) => wrr.slots
    case ByLeast(lc) => lc.backends
    case ByChance(rnd) => rnd.backends
    case ByAddress(iph) => iph.backends
  }

  ghost function BalState(s: Strategy): Bal
    reads Part(s)
  {
    match s
    case ByRoundRobin(rr) => RoundRobinBal(rr.backends, rr.counter)
    case ByWeight(wrr) => WeightedBal(wrr.slots, wrr.counter)
    case ByLeast(lc) => LeastBal(lc.backends, lc.conns)
    case ByChance(rnd) => RandomBal(rnd.backends)
    case ByAddress(iph) => IPHashBal(iph.backends, iph.counter)
  }

  /** What the constructors of the balancers and Go's int establish. */
  ghost predicate Ready(s: Strategy)
    reads Part(s)
  {
    && (s.ByLeast? ==> s.lc.Valid())
    && (s.ByAddress? ==> s.iph.backends != [] && 2 * |s.iph.backends| <= INT_MAX)
  }

  class LiveEngine {
    const bal: Strategy
    const health: Checker
    const backends: seq<string>

    constructor (bal: Strategy, health: Checker, backends: seq<string>)
      ensures this.bal == bal && this.health == health && this.backends == backends
    {
      this.bal, this.health, this.backends := bal, health, backends;
    }

    ghost function View(): Generation
      reads Part(bal), health.registry
    {
      Generation(BalState(bal), health.registry.breakers, backends)
    }

    /** What health says about the pool at this moment. */
    ghost function Up(urls: seq<string>, now: int): set<string>
      reads health, health.node
    {
      health.UpAmong(urls, now)
    }

    /** `hint` is the hash of the client address, or the random draw. */
    method NextForIP(hint: nat, now: int) returns (pick: Pick)
      requires Ready(bal)
      modifies Part(bal), health.registry
      ensures Ready(bal)
      ensures Picking(pick, View()) == PickNext(old(View()), old(Up(Listed(bal), now)), hint, now)
    {
      match bal
      case ByRoundRobin(rr) =>
        var scan := rr.Next(health, now);
        pick := Landed(scan);
      case ByWeight(wrr) =>
        var scan := wrr.Next(health, now);
        pick := Landed(scan);
      case ByLeast(lc) => pick := lc.Next(health, now);
      case ByChance(rnd) => pick := rnd.Next(health, now, hint);
      case ByAddress(iph) => pick := iph.NextForIP(health, now, hint);
    }

    /** Only least_connections keeps count. */
    method Done(backend: string)
      modifies Part(bal)
      ensures View() == old(View()).(bal := ReleasedBal(old(View()).bal, backend))
    {
      match bal
      case ByLeast(lc) => lc.Done(backend);
      case _ =>
    }

    method Record(backend: string, ok: bool, now: int)
      modifies health.registry
      ensures View() == old(View()).(circuits := Recorded(old(View()).circuits, backend, ok, now))
    {
      if ok {
        health.registry.RecordSuccess(backend);
      } else {
        health.registry.RecordFailure(backend, now);
      }
    }

    /** HasHealthyBackend: asks from the front of the pool until somebody answers. */
    method HasHealthyBackend(now: int) returns (ok: bool)
      modifies health.registry
      ensures ok == FirstAnswering(backends, old(View()).circuits, old(Up(backends, now)), now).Picked?
      ensures View() == Surveyed(old(View()), old(Up(backends, now)), now)
    {
      ghost var cs, up := health.registry.breakers, Up(backends, now);
      for i := 0 to |backends|
        invariant health.registry.breakers == cs && Up(backends, now) == up && BalState(bal) == old(BalState(bal))
        invariant FirstAnswering(backends[i..], cs, up, now) == FirstAnswering(backends, cs, up, now)
      {
        health.Among(backends, backends[i], now);
        ok := health.IsAvailable(backends[i], now);
        assert backends[i..][0] == backends[i] && backends[i..][1..] == backends[i + 1..];
        if ok {
          return;
        }
        RefusalIsFree(cs, up, backends[i], now);
      }
      assert backends[|backends|..] == [];
      ok := false;
    }
  }

  class Swappable {
    var cur: LiveEngine?

    constructor ()
      ensures cur == null
    {
      cur := null;
    }

    /** Before the first generation there is nobody to ask. */
    method NextForIP(hint: nat, now: int) returns (pick: Pick)
      requires cur != null ==> Ready(cur.bal)
      modifies if cur != null then {Part(cur.bal), cur.health.registry} else {}
      ensures cur == old(cur)
      ensures cur == null ==> pick == NoHealthyBackend
      ensures cur != null ==>
        Picking(pick, cur.View()) == PickNext(old(cur.View()), old(cur.Up(Listed(cur.bal), now)), hint, now)
    {
      if cur == null {
        return NoHealthyBackend;
      }
      pick := cur.NextForIP(hint, now);
    }

    method Done(backend: string)
      modifies if cur != null then {Part(cur.bal)} else {}
      ensures cur == old(cur)
      ensures cur != null ==> cur.View() == old(cur.View()).(bal := ReleasedBal(old(cur.View()).bal, backend))
    {
      if cur != null {
        cur.Done(backend);
      }
    }

    method Record(backend: string, ok: bool, now: int)
      modifies if cur != null then {cur.health.registry} else {}
      ensures cur == old(cur)
      ensures cur != null ==>
        cur.View() == old(cur.View()).(circuits := Recorded(old(cur.View()).circuits, backend, ok, now))
    {
      if cur != null {
        cur.Record(backend, ok, now);
      }
    }

    method HasHealthyBackend(now: int) returns (ok: bool)
      modifies if cur != null then {cur.health.registry} else {}
      ensures cur == old(cur)
      ensures cur == null ==> !ok
      ensures cur != null ==>
        && ok == FirstAnswering(cur.backends, old(cur.View()).circuits, old(cur.Up(cur.backends, now)), now).Picked?
        && cur.View() == Surveyed(old(cur.View()), old(cur.Up(cur.backends, now)), now)
    {
      if cur == null {
        return false;
      }
      ok := cur.HasHealthyBackend(now);
    }
  }
}
