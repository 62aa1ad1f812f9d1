/** Runs of the proxy, from its start, in which a trial slot leaks: by one pick of
    least_connections, and by one readiness probe. */
module GatewayLeaks {
  import opened Breaker
  import opened HealthChecker
  import opened Balancer
  import opened Engine
  import opened Proxy
  import opened Gateway
  import opened GatewaySafety
  import opened Pairs

  // ---- the pool: any two backends ----

  /** Two backends under least_connections that trip on their first failure and cool down
      for ten. */
  function PairConfig(u: string, v: string): Config {
    Config(PairEntries(u, v), "least_connections", 1, 10, false)
  }

  function PairGeneration(u: string, c: Circuit, v: string, d: Circuit): Generation {
    Generation(LeastBal([u, v], PairCounts(u, 0, v, 0)), PairCircuits(u, c, v, d), [u, v])
  }

  lemma PairRebuilt(u: string, v: string, cfg: Config)
    requires Names(u, v) && cfg == PairConfig(u, v)
    ensures Rebuilt(NoGeneration, cfg, []) == Current(PairGeneration(u, NewCircuit(1, 10), v, NewCircuit(1, 10)))
  {
    PairPool(u, v);
    PairFresh(u, v, 1, 10);
    NewNamed(cfg.strategy, PairEntries(u, v));
    FirstGeneration(cfg, PairEntries(u, v), LeastBal([u, v], PairCounts(u, 0, v, 0)));
  }

  // ---- a pick ----

  /** The first of the two that answers when both are up; nobody has work. */
  function FirstOf(u: string, c: Circuit, v: string, d: Circuit, now: int): Pick {
    if Admits(c, now) then Picked(u) else if Admits(d, now) then Picked(v) else NoHealthyBackend
  }

  lemma PairLeast(u: string, v: string, healthy: seq<string>, up: bool, also: bool)
    requires Names(u, v) && healthy == (if up then [u] else []) + (if also then [v] else [])
    ensures var conns := PairCounts(u, 0, v, 0);
      Chosen(LeastLoaded(healthy, conns)) == if up then Picked(u) else if also then Picked(v) else NoHealthyBackend
  {
    var conns := PairCounts(u, 0, v, 0);
    LeastOfOne(u, conns);
    LeastOfOne(v, conns);
    LeastOfTwo(u, v, conns);
    assert healthy == if up && also then [u, v] else if up then [u] else if also then [v] else [];
  }

  /** A pick under least_connections asks both, and takes the first that answers. */
  lemma PairPick(u: string, c: Circuit, v: string, d: Circuit, now: int)
    requires Names(u, v)
    ensures var pick := FirstOf(u, c, v, d, now);
      PickNext(PairGeneration(u, c, v, d), {u, v}, 0, now) ==
        Picking(pick, Generation(LeastBal([u, v], Bumped(PairCounts(u, 0, v, 0), pick)),
                                 PairCircuits(u, Asked(c, now), v, Asked(d, now)), [u, v]))
  {
    PairSurvey(u, c, v, d, now);
    PairLeast(u, v, AskAll([u, v], PairCircuits(u, c, v, d), {u, v}, now).healthy, Admits(c, now), Admits(d, now));
  }

  // ---- a request that fails ----

  function Attempt(id: nat, up: set<string>): seq<Step> {
    [Arrive(id, false), Choose(id, up, 0), Return(id, NetworkError), Record(id)]
  }

  function Failure(b: string): Request {
    Request(false, 0, Finished, [Chose(b), Released(b), Reported(b, false)])
  }

  lemma AttemptSteps(g: Gateway, id: nat, up: set<string>)
    ensures Run(g, Attempt(id, up)) ==
            Apply(Apply(Apply(Apply(g, Arrive(id, false)), Choose(id, up, 0)), Return(id, NetworkError)), Record(id))
  {
    var g1 := Apply(g, Arrive(id, false));
    var g2 := Apply(g1, Choose(id, up, 0));
    var g3 := Apply(g2, Return(id, NetworkError));
    RunCons(g, Arrive(id, false), [Choose(id, up, 0), Return(id, NetworkError), Record(id)]);
    RunCons(g1, Choose(id, up, 0), [Return(id, NetworkError), Record(id)]);
    RunCons(g2, Return(id, NetworkError), [Record(id)]);
    RunCons(g3, Record(id), []);
  }

  lemma Arrives(g: Gateway, id: nat, up: set<string>, gen: Generation, gen': Generation, b: string)
    requires g.live == Current(gen) && id !in g.requests
    requires PickNext(gen, up, 0, g.now) == Picking(Picked(b), gen')
    ensures Apply(Apply(g, Arrive(id, false)), Choose(id, up, 0)) ==
            g.(requests := g.requests[id := Request(false, 0, Calling(b), [Chose(b)])], live := Current(gen'))
  {
    var g1 := Apply(g, Arrive(id, false));
    assert g1.requests[id] == Start(false);
    assert [] + [Chose(b)] == [Chose(b)];
    assert g.requests[id := Start(false)][id := Request(false, 0, Calling(b), [Chose(b)])] ==
           g.requests[id := Request(false, 0, Calling(b), [Chose(b)])];
  }

  lemma Fails(r: Request, b: string, maxRetries: nat)
    requires r == Request(false, 0, Calling(b), [Chose(b)])
    ensures OnReturn(r, NetworkError, maxRetries) ==
            Request(false, 0, Recording(b, false, true), [Chose(b), Released(b)])
    ensures OnRecord(OnReturn(r, NetworkError, maxRetries), maxRetries) == Failure(b)
  {
  }

  /** A call that fails and is reported: the count goes back, the circuit takes note. */
  lemma FailsAndReports(g: Gateway, id: nat, urls: seq<string>, conns: map<string, int>, cs: Circuits, b: string)
    requires g.live == Current(Generation(LeastBal(urls, conns), cs, urls))
    requires b in conns && b in cs && id in g.requests
    requires g.requests[id] == Request(false, 0, Calling(b), [Chose(b)])
    ensures Apply(Apply(g, Return(id, NetworkError)), Record(id)) ==
            g.(requests := g.requests[id := Failure(b)],
               live := Current(Generation(LeastBal(urls, conns[b := conns[b] - 1]),
                                          cs[b := Failed(cs[b], g.now)], urls)))
  {
    Fails(g.requests[id], b, g.maxRetries);
    var r := OnReturn(g.requests[id], NetworkError, g.maxRetries);
    var g1 := Apply(g, Return(id, NetworkError));
    assert g1.requests == g.requests[id := r];
    assert g.requests[id := r][id := Failure(b)] == g.requests[id := Failure(b)];
  }

  /** The generation with one of the pair called. */
  lemma BumpedBack(u: string, v: string, b: string)
    requires Names(u, v) && (b == u || b == v)
    ensures var conns := Bumped(PairCounts(u, 0, v, 0), Picked(b));
      b in conns && conns[b := conns[b] - 1] == PairCounts(u, 0, v, 0)
  {
  }

  /** A request that is sent to `b` and fails. */
  lemma CallsAndFails(g: Gateway, id: nat, u: string, v: string, cs: Circuits, conns: map<string, int>,
                      b: string, g2: Gateway)
    requires b in conns && b in cs
    requires g2 == g.(requests := g.requests[id := Request(false, 0, Calling(b), [Chose(b)])],
                      live := Current(Generation(LeastBal([u, v], conns), cs, [u, v])))
    ensures Apply(Apply(g2, Return(id, NetworkError)), Record(id)) ==
            g.(requests := g.requests[id := Failure(b)],
               live := Current(Generation(LeastBal([u, v], conns[b := conns[b] - 1]),
                                          cs[b := Failed(cs[b], g.now)], [u, v])))
  {
    FailsAndReports(g2, id, [u, v], conns, cs, b);
    LastUpdate(g.requests, id, Request(false, 0, Calling(b), [Chose(b)]), Failure(b));
  }

  /** One failing request to a pair in which nobody's cooldown is over. */
  lemma OneFailure(g: Gateway, id: nat, u: string, c: Circuit, v: string, d: Circuit, b: string, g': Gateway)
    requires Names(u, v) && g.live == Current(PairGeneration(u, c, v, d)) && id !in g.requests
    requires FirstOf(u, c, v, d, g.now) == Picked(b) && Asked(c, g.now) == c && Asked(d, g.now) == d
    requires g' == Run(g, Attempt(id, {u, v}))
    ensures g'.requests == g.requests[id := Failure(b)] && g'.now == g.now && g'.maxRetries == g.maxRetries
    ensures b == u ==> g'.live == Current(PairGeneration(u, Failed(c, g.now), v, d))
    ensures b == v ==> g'.live == Current(PairGeneration(u, c, v, Failed(d, g.now)))
  {
    var cs, conns := PairCircuits(u, c, v, d), Bumped(PairCounts(u, 0, v, 0), Picked(b));
    PairPick(u, c, v, d, g.now);
    Arrives(g, id, {u, v}, g.live.gen, Generation(LeastBal([u, v], conns), cs, [u, v]), b);
    AttemptSteps(g, id, {u, v});
    BumpedBack(u, v, b);
    CallsAndFails(g, id, u, v, cs, conns, b, Apply(Apply(g, Arrive(id, false)), Choose(id, {u, v}, 0)));
    FailedPair(u, c, v, d, b, g.now);
  }

  lemma LastUpdate<K, V>(m: map<K, V>, k: K, v: V, u: V)
    ensures m[k := v][k := u] == m[k := u]
  {
  }

  lemma FailedPair(u: string, c: Circuit, v: string, d: Circuit, b: string, now: int)
    requires Names(u, v) && (b == u || b == v)
    ensures var cs := PairCircuits(u, c, v, d);
      && (b == u ==> cs[b := Failed(cs[b], now)] == PairCircuits(u, Failed(c, now), v, d))
      && (b == v ==> cs[b := Failed(cs[b], now)] == PairCircuits(u, c, v, Failed(d, now)))
  {
  }

  // ---- a state in which both backends have cooled down ----

  function CooledRun(u: string, v: string): seq<Step> {
    [Rebuild(PairConfig(u, v), [])] + Attempt(0, {u, v}) + Attempt(1, {u, v}) + [Tick(10)]
  }

  function TrippedAt(t: int): Circuit {
    Circuit(Open, 0, t, 1, 10)
  }

  function CooledState(u: string, v: string, now: int, maxRetries: nat): Gateway {
    Gateway(Current(PairGeneration(u, TrippedAt(now), v, TrippedAt(now))),
            map[0 := Failure(u), 1 := Failure(v)], now + 10, maxRetries)
  }

  lemma BothFail(g: Gateway, u: string, v: string, g1: Gateway, g2: Gateway)
    requires Names(u, v) && g.requests == map[]
    requires g.live == Current(PairGeneration(u, NewCircuit(1, 10), v, NewCircuit(1, 10)))
    requires g1 == Run(g, Attempt(0, {u, v})) && g2 == Run(g1, Attempt(1, {u, v}))
    ensures g2 == CooledState(u, v, g.now, g.maxRetries).(now := g.now)
  {
    var untried, tripped := NewCircuit(1, 10), TrippedAt(g.now);
    OneFailure(g, 0, u, untried, v, untried, u, g1);
    assert Failed(untried, g.now) == tripped;
    OneFailure(g1, 1, u, tripped, v, untried, v, g2);
    assert g2.requests == map[0 := Failure(u), 1 := Failure(v)];
  }

  /** The proxy starts, two requests fail and the cooldown passes. */
  lemma CooledReachable(g: Gateway, u: string, v: string)
    requires Initial(g) && Names(u, v)
    ensures Run(g, CooledRun(u, v)) == CooledState(u, v, g.now, g.maxRetries)
  {
    var cfg, untried := PairConfig(u, v), NewCircuit(1, 10);
    var g1 := g.(live := Current(PairGeneration(u, untried, v, untried)));
    PairRebuilt(u, v, cfg);
    Starts(g, cfg, g1.live);
    var g2 := Run(g1, Attempt(0, {u, v}));
    var g3 := Run(g2, Attempt(1, {u, v}));
    BothFail(g1, u, v, g2, g3);
    CooledSteps(g, u, v, g1, g2, g3);
  }

  lemma CooledSteps(g: Gateway, u: string, v: string, g1: Gateway, g2: Gateway, g3: Gateway)
    requires g1 == Apply(g, Rebuild(PairConfig(u, v), []))
    requires g2 == Run(g1, Attempt(0, {u, v})) && g3 == Run(g2, Attempt(1, {u, v}))
    ensures Run(g, CooledRun(u, v)) == Apply(g3, Tick(10))
  {
    var first: seq<Step> := [Rebuild(PairConfig(u, v), [])];
    RunOne(g, first[0]);
    RunConcat(g, first, Attempt(0, {u, v}));
    RunConcat(g, first + Attempt(0, {u, v}), Attempt(1, {u, v}));
    RunConcat(g, first + Attempt(0, {u, v}) + Attempt(1, {u, v}), [Tick(10)]);
    RunOne(g3, Tick(10));
  }

  lemma RunOne(g: Gateway, st: Step)
    ensures Run(g, [st]) == Apply(g, st)
  {
    assert [st][1..] == [];
  }

  lemma CooledHoldsNothing(u: string, v: string, now: int, maxRetries: nat, b: string)
    requires Names(u, v)
    ensures !HalfOpenAt(CooledState(u, v, now, maxRetries), b) && !Held(CooledState(u, v, now, maxRetries), b)
  {
    var g := CooledState(u, v, now, maxRetries);
    forall id | id in g.requests ensures !HeldBy(g.requests[id], b) {
      assert id == 0 || id == 1;
    }
  }

  lemma CooledIsSafe(u: string, v: string, now: int, maxRetries: nat)
    requires Names(u, v)
    ensures SlotsHeld(CooledState(u, v, now, maxRetries))
  {
    var g := CooledState(u, v, now, maxRetries);
    forall b ensures !HalfOpenAt(g, b) {
      CooledHoldsNothing(u, v, now, maxRetries, b);
    }
  }

  // ---- the leaks ----

  /** One more request under least_connections: it is given both trials and can report on
      one of them only. The slot of `v` is lost, in a run from the start. */
  lemma LeakExample(g: Gateway, u: string, v: string)
    requires Initial(g) && Names(u, v)
    ensures SlotsHeld(Run(g, CooledRun(u, v)))
    ensures Stuck(Run(g, CooledRun(u, v) + [Arrive(2, false), Choose(2, {u, v}, 0)]), v)
  {
    var cooled := CooledState(u, v, g.now, g.maxRetries);
    CooledReachable(g, u, v);
    CooledIsSafe(u, v, g.now, g.maxRetries);
    RunConcat(g, CooledRun(u, v), [Arrive(2, false), Choose(2, {u, v}, 0)]);
    RunCons(cooled, Arrive(2, false), [Choose(2, {u, v}, 0)]);
    RunOne(Apply(cooled, Arrive(2, false)), Choose(2, {u, v}, 0));
    ThirdRequest(u, v, g.now, g.maxRetries, Apply(Apply(cooled, Arrive(2, false)), Choose(2, {u, v}, 0)));
  }

  lemma ThirdRequest(u: string, v: string, now: int, maxRetries: nat, g: Gateway)
    requires Names(u, v)
    requires g == Apply(Apply(CooledState(u, v, now, maxRetries), Arrive(2, false)), Choose(2, {u, v}, 0))
    ensures Stuck(g, v)
  {
    var cooled, c := CooledState(u, v, now, maxRetries), TrippedAt(now);
    PairPick(u, c, v, c, now + 10);
    var gen' := PickNext(cooled.live.gen, {u, v}, 0, now + 10).gen;
    Arrives(cooled, 2, {u, v}, cooled.live.gen, gen', u);
    assert gen'.circuits[v].state == HalfOpen;
    forall id | id in g.requests ensures !HeldBy(g.requests[id], v) {
      assert id == 0 || id == 1 || id == 2;
    }
  }

  /** One readiness probe in the same state takes the trial of `u`, and nobody will ever
      report on it. */
  lemma ReadyzLeakExample(g: Gateway, u: string, v: string)
    requires Initial(g) && Names(u, v)
    ensures SlotsHeld(Run(g, CooledRun(u, v)))
    ensures Stuck(Run(g, CooledRun(u, v) + [Readyz({u, v})]), u)
  {
    var cooled := CooledState(u, v, g.now, g.maxRetries);
    CooledReachable(g, u, v);
    CooledIsSafe(u, v, g.now, g.maxRetries);
    RunConcat(g, CooledRun(u, v), [Readyz({u, v})]);
    RunOne(cooled, Readyz({u, v}));
    ProbeTakesTrial(u, v, g.now, g.maxRetries);
  }

  lemma ProbeTakesTrial(u: string, v: string, now: int, maxRetries: nat)
    requires Names(u, v)
    ensures Stuck(Apply(CooledState(u, v, now, maxRetries), Readyz({u, v})), u)
  {
    var g, c := CooledState(u, v, now, maxRetries), TrippedAt(now);
    assert Answers(g.live.gen.circuits, {u, v}, u, now + 10);
    assert [u, v][0] == u;
    assert FirstAnswering([u, v], g.live.gen.circuits, {u, v}, now + 10) == Picked(u);
    CooledHoldsNothing(u, v, now, maxRetries, u);
    var g' := Apply(g, Readyz({u, v}));
    assert g'.live.gen.circuits[u] == Asked(c, now + 10);
    assert g'.requests == g.requests;
  }
}
