/** The per-backend circuit breaker and the registry of them (internal/health/breaker.go). */
module Breaker {

  datatype State = Closed | Open | HalfOpen

  /** One breaker. `openAt` is only meaningful after a trip. */
  datatype Circuit = Circuit(state: State, fails: int, openAt: int, threshold: int, cooldown: int)

  function NewCircuit(threshold: int, cooldown: int): Circuit {
    Circuit(Closed, 0, 0, threshold, cooldown)
  }

  /** The answer IsAvailable gives. */
  predicate Admits(c: Circuit, now: int) {
    c.state == Closed || (c.state == Open && now - c.openAt >= c.cooldown)
  }

  /** Asking is not free: an open circuit whose cooldown is over hands its one trial
      slot to whoever asks. */
  function Asked(c: Circuit, now: int): Circuit {
    if c.state == Open && Admits(c, now) then c.(state := HalfOpen) else c
  }

  function Succeeded(c: Circuit): Circuit {
    c.(state := if c.state == HalfOpen then Closed else c.state, fails := 0)
  }

  predicate Trips(c: Circuit) {
    c.state == HalfOpen || c.fails + 1 >= c.threshold
  }

  function Failed(c: Circuit, now: int): Circuit {
    if Trips(c) then c.(state := Open, fails := 0, openAt := now) else c.(fails := c.fails + 1)
  }

  type Circuits = map<string, Circuit>

  /** An unknown backend is admitted, and nothing is recorded about it. */
  predicate AdmitsFor(cs: Circuits, b: string, now: int) {
    b in cs ==> Admits(cs[b], now)
  }

  function AskedFor(cs: Circuits, b: string, now: int): Circuits {
    if b in cs then cs[b := Asked(cs[b], now)] else cs
  }

  function SucceededFor(cs: Circuits, b: string): Circuits {
    if b in cs then cs[b := Succeeded(cs[b])] else cs
  }

  function FailedFor(cs: Circuits, b: string, now: int): Circuits {
    if b in cs then cs[b := Failed(cs[b], now)] else cs
  }

  /** The circuit a new registry has for a backend the old one knows: new limits, old
      state. */
  function Inherit(c: Circuit, prev: Circuit): Circuit {
    c.(state := prev.state, fails := prev.fails, openAt := prev.openAt)
  }

  /** `cs` with the state of `prev` taken over for the backends in `ks`. */
  function Carried(cs: Circuits, prev: Circuits, ks: set<string>): Circuits {
    map b | b in cs :: if b in prev && b in ks then Inherit(cs[b], prev[b]) else cs[b]
  }

  function FreshCircuits(backends: seq<string>, threshold: int, cooldown: int): Circuits {
    map b | b in backends :: NewCircuit(threshold, cooldown)
  }

  class Registry {
    var breakers: Circuits

    constructor (backends: seq<string>, threshold: int, cooldown: int)
      ensures breakers == FreshCircuits(backends, threshold, cooldown)
    {
      var bs: Circuits := map[];
      for i := 0 to |backends|
        invariant bs == FreshCircuits(backends[..i], threshold, cooldown)
      {
        bs := bs[backends[i] := NewCircuit(threshold, cooldown)];
      }
      breakers := bs;
      assert backends[..|backends|] == backends;
    }

    method IsAvailable(backend: string, now: int) returns (ok: bool)
      modifies this
      ensures ok == AdmitsFor(old(breakers), backend, now)
      ensures breakers == AskedFor(old(breakers), backend, now)
    {
      if backend !in breakers {
        return true;
      }
      var br := breakers[backend];
      match br.state
      case Closed =>
        ok := true;
      case Open =>
        if now - br.openAt >= br.cooldown {
          breakers := breakers[backend := br.(state := HalfOpen)];
          ok := true;
        } else {
          ok := false;
        }
      case HalfOpen =>
        ok := false;
    }

    method RecordSuccess(backend: string)
      modifies this
      ensures breakers == SucceededFor(old(breakers), backend)
    {
      if backend !in breakers {
        return;
      }
      var br := breakers[backend];
      if br.state == HalfOpen {
        br := br.(state := Closed);
      }
      breakers := breakers[backend := br.(fails := 0)];
    }

    method RecordFailure(backend: string, now: int)
      modifies this
      ensures breakers == FailedFor(old(breakers), backend, now)
    {
      if backend !in breakers {
        return;
      }
      var br := breakers[backend];
      br := br.(fails := br.fails + 1);
      if br.state == HalfOpen || br.fails >= br.threshold {
        br := br.(openAt := now, state := Open, fails := 0);
      }
      breakers := breakers[backend := br];
    }

    method CarryOver(prev: Registry)
      modifies this
      ensures breakers == if prev == this then old(breakers)
                          else Carried(old(breakers), old(prev.breakers), old(prev.breakers).Keys)
    {
      if prev == this {
        return;
      }
      ghost var cs := breakers;
      var todo := prev.breakers.Keys;
      ghost var done: set<string> := {};
      assert Carried(cs, prev.breakers, {}) == cs;
      while todo != {}
        invariant prev.breakers == old(prev.breakers)
        invariant done <= prev.breakers.Keys && todo == prev.breakers.Keys - done
        invariant breakers == Carried(cs, prev.breakers, done)
        decreases |todo|
      {
        var url :| url in todo;
        if url in breakers {
          breakers := breakers[url := Inherit(breakers[url], prev.breakers[url])];
        }
        CarriedOneMore(cs, prev.breakers, done, url);
        done, todo := done + {url}, todo - {url};
      }
      assert done == prev.breakers.Keys;
    }
  }

  lemma CarriedOneMore(cs: Circuits, prev: Circuits, done: set<string>, b: string)
    requires b in prev && b !in done
    ensures Carried(cs, prev, done + {b}) ==
            if b in cs then Carried(cs, prev, done)[b := Inherit(cs[b], prev[b])] else Carried(cs, prev, done)
  {
  }
}
