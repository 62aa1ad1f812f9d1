/** The running proxy: requests at every stage of their loop, the live generation, and
    rebuilds, interleaved in any order. Each call into the generation is one step, made
    on the generation that is current at that moment. */
module Gateway {
  import opened Breaker
  import opened HealthChecker
  import opened Balancer
  import opened BalancerTheorems
  import opened Engine
  import opened Proxy

  datatype Gateway = Gateway(live: Live, requests: map<nat, Request>, now: int, maxRetries: nat)

  /** `up` is what the local map and the cluster say about each backend at that moment;
      `hint` is the hash of the client address, or the random draw. */
  datatype Step =
    | Tick(elapsed: nat)
    | Arrive(id: nat, idempotent: bool)
    | Choose(id: nat, up: set<string>, hint: nat)
    | Return(id: nat, outcome: Outcome)
    | Record(id: nat)
    | Rebuild(cfg: Config, discovered: seq<string>)
    | Readyz(up: set<string>)

  datatype Picking = Picking(pick: Pick, gen: Generation)

  // ---- what a step asks of the generation ----

  /** A scan that ended with `pick` has asked for that backend's trial, if any. */
  function Scanned(gen: Generation, pick: Pick, now: int): Picking {
    Picking(pick, gen.(circuits := AfterScan(gen.circuits, pick, now)))
  }

  /** The readiness probe stops at the first backend of the pool that answers. */
  function Surveyed(gen: Generation, up: set<string>, now: int): Generation {
    Scanned(gen, FirstAnswering(gen.backends, gen.circuits, up, now), now).gen
  }

  /** NextForIP of the live generation: ip_hash uses the address, every other strategy
      its own Next. */
  function PickNext(gen: Generation, up: set<string>, hint: nat, now: int): Picking {
    match gen.bal
    case RoundRobinBal(urls, counter) =>
      var pick := Landed(ScanSlots(urls, counter, gen.circuits, up, now));
      Scanned(gen.(bal := RoundRobinBal(urls, counter + 1)), pick, now)
    case WeightedBal(slots, counter) =>
      var pick := Landed(ScanSlots(slots, counter, gen.circuits, up, now));
      Scanned(gen.(bal := WeightedBal(slots, counter + 1)), pick, now)
    case IPHashBal(urls, _) =>
      if urls == [] then Picking(NoHealthyBackend, gen)
      else Scanned(gen, FirstAnswering(Rotation(urls, hint), gen.circuits, up, now), now)
    case RandomBal(urls) =>
      var all := AskAll(urls, gen.circuits, up, now);
      Picking(if all.healthy == [] then NoHealthyBackend else Picked(all.healthy[hint % |all.healthy|]),
              gen.(circuits := all.circuits))
    case LeastBal(urls, conns) =>
      var all := AskAll(urls, gen.circuits, up, now);
      var pick := Chosen(LeastLoaded(all.healthy, conns));
      Picking(pick, gen.(circuits := all.circuits, bal := LeastBal(urls, Bumped(conns, pick))))
  }

  function Bumped(conns: map<string, int>, pick: Pick): map<string, int> {
    if pick.Picked? && pick.url in conns then conns[pick.url := conns[pick.url] + 1] else conns
  }

  function ReleasedBal(bal: Bal, b: string): Bal {
    if bal.LeastBal? && b in bal.conns then bal.(conns := bal.conns[b := bal.conns[b] - 1]) else bal
  }

  function Recorded(cs: Circuits, b: string, ok: bool, now: int): Circuits {
    if ok then SucceededFor(cs, b) else FailedFor(cs, b, now)
  }

  // ---- the machine ----

  predicate Enabled(g: Gateway, st: Step) {
    match st
    case Arrive(id, _) => id !in g.requests
    case Choose(id, _, _) => id in g.requests && g.requests[id].phase.Choosing?
    case Return(id, _) => id in g.requests && g.requests[id].phase.Calling?
    case Record(id) => id in g.requests && g.requests[id].phase.Recording?
    case _ => true
  }

  /** The picking a Choose step leads to. */
  function PickFor(g: Gateway, st: Step): Pick
    requires st.Choose?
  {
    if g.live.Current? then PickNext(g.live.gen, st.up, st.hint, g.now).pick else NoHealthyBackend
  }

  function Apply(g: Gateway, st: Step): Gateway {
    if !Enabled(g, st) then g else
    match st
    case Tick(elapsed) => g.(now := g.now + elapsed)
    case Arrive(id, idempotent) => g.(requests := g.requests[id := Start(idempotent)])
    case Choose(id, up, hint) =>
      g.(requests := g.requests[id := OnPick(g.requests[id], PickFor(g, st))],
         live := if g.live.Current? then Current(PickNext(g.live.gen, up, hint, g.now).gen) else g.live)
    case Return(id, outcome) =>
      var b := g.requests[id].phase.backend;
      g.(requests := g.requests[id := OnReturn(g.requests[id], outcome, g.maxRetries)],
         live := if g.live.Current? then Current(g.live.gen.(bal := ReleasedBal(g.live.gen.bal, b))) else g.live)
    case Record(id) =>
      var p := g.requests[id].phase;
      g.(requests := g.requests[id := OnRecord(g.requests[id], g.maxRetries)],
         live := if g.live.Current?
                 then Current(g.live.gen.(circuits := Recorded(g.live.gen.circuits, p.backend, p.ok, g.now)))
                 else g.live)
    case Rebuild(cfg, discovered) => g.(live := Rebuilt(g.live, cfg, discovered))
    case Readyz(up) =>
      g.(live := if g.live.Current? then Current(Surveyed(g.live.gen, up, g.now)) else g.live)
  }

  function Run(g: Gateway, steps: seq<Step>): Gateway
    decreases |steps|
  {
    if steps == [] then g else Run(Apply(g, steps[0]), steps[1..])
  }

  lemma RunCons(g: Gateway, st: Step, steps: seq<Step>)
    ensures Run(g, [st] + steps) == Run(Apply(g, st), steps)
  {
    assert ([st] + steps)[1..] == steps;
  }

  lemma {:induction false} RunConcat(g: Gateway, s: seq<Step>, t: seq<Step>)
    ensures Run(g, s + t) == Run(Run(g, s), t)
    decreases |s|
  {
    if s == [] {
      assert s + t == t;
    } else {
      assert (s + t)[1..] == s[1..] + t;
      RunConcat(Apply(g, s[0]), s[1..], t);
    }
  }

  predicate Initial(g: Gateway) {
    g.live == NoGeneration && g.requests == map[]
  }

  // ---- what a picking does to one circuit ----

  /** Asking twice at the same moment is asking once. */
  lemma AskedTwice(c: Circuit, now: int)
    ensures Asked(Asked(c, now), now) == Asked(c, now)
    ensures Admits(Asked(c, now), now) ==> Admits(c, now)
  {
  }

  /** After a survey every circuit that was asked about has been asked once, whoever was
      picked; and the list of the healthy is everybody who answered. */
  lemma {:induction false} AskAllAt(urls: seq<string>, cs: Circuits, up: set<string>, now: int, b: string)
    ensures var all := AskAll(urls, cs, up, now);
      && (b in all.circuits <==> b in cs)
      && (b in cs ==> all.circuits[b] == if b in urls && b in up then Asked(cs[b], now) else cs[b])
      && (b in all.healthy <==> b in urls && Answers(cs, up, b, now))
    decreases |urls|
  {
    if urls != [] {
      var n := |urls| - 1;
      AskAllAt(urls[..n], cs, up, now, b);
      assert urls == urls[..n] + [urls[n]];
      if b in cs {
        AskedTwice(cs[b], now);
      }
    }
  }

  lemma {:induction false} ScanAnswers(order: seq<string>, cs: Circuits, up: set<string>, now: int)
    ensures var pick := FirstAnswering(order, cs, up, now);
      pick.Picked? ==> pick.url in order && Answers(cs, up, pick.url, now)
  {
    if order != [] && !Answers(cs, up, order[0], now) {
      ScanAnswers(order[1..], cs, up, now);
    }
  }

  lemma {:induction false} ScanFromAnswers(
    slots: seq<string>, start: nat, i: nat, cs: Circuits, up: set<string>, now: int)
    requires i <= |slots|
    ensures var pick := Landed(ScanFrom(slots, start, i, cs, up, now));
      pick.Picked? ==> pick.url in slots && Answers(cs, up, pick.url, now)
    decreases |slots| - i
  {
    if i < |slots| {
      ScanFromAnswers(slots, start, i + 1, cs, up, now);
    }
  }

  lemma {:induction false} LeastIsHealthy(healthy: seq<string>, conns: map<string, int>)
    requires Chosen(LeastLoaded(healthy, conns)).Picked?
    ensures Chosen(LeastLoaded(healthy, conns)).url in healthy
  {
    if healthy != [] {
      BestIsCandidate(healthy, conns);
    }
  }

  /** The strategies that stop asking at the first backend that answers. */
  predicate Scans(bal: Bal) {
    bal.RoundRobinBal? || bal.WeightedBal? || bal.IPHashBal?
  }

  /** The circuits a picking asks about: the picked one only, or everybody. */
  predicate AsksAbout(gen: Generation, pick: Pick, up: set<string>, b: string) {
    if Scans(gen.bal) then pick == Picked(b) else b in BackendsOf(gen.bal) && b in up
  }

  /** The picked backend did answer, and what happened to the circuit of any `b`. */
  lemma PickNextAt(gen: Generation, up: set<string>, hint: nat, now: int, b: string)
    ensures var p := PickNext(gen, up, hint, now);
      && (p.pick == Picked(b) ==> b in up && (b in gen.circuits ==> Admits(gen.circuits[b], now)))
      && (b in p.gen.circuits <==> b in gen.circuits)
      && (b in gen.circuits ==>
            p.gen.circuits[b] == if AsksAbout(gen, p.pick, up, b) then Asked(gen.circuits[b], now) else gen.circuits[b])
      && p.gen.backends == gen.backends
  {
    match gen.bal
    case RoundRobinBal(urls, counter) =>
      ScanFromAnswers(urls, counter, 0, gen.circuits, up, now);
    case WeightedBal(slots, counter) =>
      ScanFromAnswers(slots, counter, 0, gen.circuits, up, now);
    case IPHashBal(urls, _) =>
      if urls != [] {
        ScanAnswers(Rotation(urls, hint), gen.circuits, up, now);
      }
    case RandomBal(urls) => AskAllAt(urls, gen.circuits, up, now, b);
    case LeastBal(urls, conns) =>
      var all := AskAll(urls, gen.circuits, up, now);
      AskAllAt(urls, gen.circuits, up, now, b);
      if Chosen(LeastLoaded(all.healthy, conns)).Picked? {
        LeastIsHealthy(all.healthy, conns);
      }
  }
}
