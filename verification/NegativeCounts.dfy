/** A run of the proxy, from its start, in which a reload drives a connection count
    negative and the next pick passes over the backend with the smallest count. */
module NegativeCounts {
  import opened Breaker
  import opened HealthChecker
  import opened Balancer
  import opened Engine
  import opened Proxy
  import opened Gateway
  import opened Pairs

  function PairConfig(u: string, v: string, strategy: string): Config {
    Config(PairEntries(u, v), strategy, 5, 30, false)
  }

  /** Two backends that have never failed. */
  function Untried(u: string, v: string): Circuits {
    PairCircuits(u, NewCircuit(5, 30), v, NewCircuit(5, 30))
  }

  function UnderRoundRobin(u: string, v: string, counter: nat): Live {
    Current(Generation(RoundRobinBal([u, v], counter), Untried(u, v), [u, v]))
  }

  function UnderLeast(u: string, m: int, v: string, n: int): Live {
    Current(Generation(LeastBal([u, v], PairCounts(u, m, v, n)), Untried(u, v), [u, v]))
  }

  /** The proxy starts under round_robin. */
  lemma StartsRoundRobin(g: Gateway, u: string, v: string, cfg: Config)
    requires g.live == NoGeneration && Names(u, v) && cfg == PairConfig(u, v, "round_robin")
    ensures Apply(g, Rebuild(cfg, [])) == g.(live := UnderRoundRobin(u, v, 0))
  {
    PairPool(u, v);
    PairFresh(u, v, 5, 30);
    NewNamed(cfg.strategy, PairEntries(u, v));
    FirstGeneration(cfg, PairEntries(u, v), RoundRobinBal([u, v], 0));
    Starts(g, cfg, UnderRoundRobin(u, v, 0));
  }

  lemma RoundRobinPicksFirst(u: string, v: string, now: int)
    requires Names(u, v)
    ensures PickNext(UnderRoundRobin(u, v, 0).gen, {u, v}, 0, now) == Picking(Picked(u), UnderRoundRobin(u, v, 1).gen)
  {
    var cs := Untried(u, v);
    assert [u, v][0] == u;
    assert Answers(cs, {u, v}, u, now);
    SlotIndexInRange(0, 0, 2);
    assert ScanSlots([u, v], 0, cs, {u, v}, now) == Done(Picked(u));
    assert AfterScan(cs, Picked(u), now) == cs;
  }

  /** A request comes in and is sent to the first backend. */
  lemma FirstCalls(g: Gateway, u: string, v: string)
    requires Names(u, v) && g.live == UnderRoundRobin(u, v, 0) && g.requests == map[]
    ensures var r := Request(false, 0, Calling(u), [Chose(u)]);
      Apply(Apply(g, Arrive(0, false)), Choose(0, {u, v}, 0)) ==
        g.(requests := map[0 := r], live := UnderRoundRobin(u, v, 1))
  {
    RoundRobinPicksFirst(u, v, g.now);
    var r := Request(false, 0, Calling(u), [Chose(u)]);
    var g1 := Apply(g, Arrive(0, false));
    assert g1.requests[0] == Start(false) && g1.live == g.live;
    assert OnPick(Start(false), Picked(u)) == r by {
      assert [] + [Chose(u)] == [Chose(u)];
    }
    assert g1.requests[0 := r] == map[0 := r];
  }

  /** The strategy is reloaded while it is out: the new counts start from zero. */
  lemma ReloadsLeast(g: Gateway, u: string, v: string, cfg: Config)
    requires Names(u, v) && g.live == UnderRoundRobin(u, v, 1) && cfg == PairConfig(u, v, "least_connections")
    ensures Apply(g, Rebuild(cfg, [])) == g.(live := UnderLeast(u, 0, v, 0))
  {
    PairPool(u, v);
    PairFresh(u, v, 5, 30);
    NewNamed(cfg.strategy, PairEntries(u, v));
    var cs := Untried(u, v);
    assert Carried(cs, cs, cs.Keys) == cs;
    assert Made(PairEntries(u, v), LeastBal([u, v], PairCounts(u, 0, v, 0)), cfg, g.live) ==
           UnderLeast(u, 0, v, 0).gen;
    Starts(g, cfg, UnderLeast(u, 0, v, 0));
  }

  /** The request comes back. */
  lemma FirstReturns(g: Gateway, u: string, v: string)
    requires Names(u, v) && g.live == UnderLeast(u, 0, v, 0)
    requires g.requests == map[0 := Request(false, 0, Calling(u), [Chose(u)])]
    ensures var g' := Apply(g, Return(0, Response(200)));
      && g'.live == UnderLeast(u, -1, v, 0) && g'.now == g.now && g'.requests.Keys == {0}
  {
    assert PairCounts(u, 0, v, 0)[u := -1] == PairCounts(u, -1, v, 0);
  }

  /** With counts -1 and 0 the scan takes the second: the -1 looks like the sentinel. */
  lemma PassesOver(u: string, v: string, now: int)
    requires Names(u, v)
    ensures PickNext(UnderLeast(u, -1, v, 0).gen, {u, v}, 0, now).pick == Picked(v)
  {
    var c, conns := NewCircuit(5, 30), PairCounts(u, -1, v, 0);
    PairSurvey(u, c, v, c, now);
    LeastOfOne(u, conns);
    assert [u, v][..1] == [u];
    assert LeastLoaded([u, v], conns) == Consider(Best(u, -1), v, 0);
    assert [u] + [v] == [u, v];
  }

  function NegativeRun(u: string, v: string): seq<Step> {
    [Rebuild(PairConfig(u, v, "round_robin"), []), Arrive(0, false), Choose(0, {u, v}, 0),
     Rebuild(PairConfig(u, v, "least_connections"), []), Return(0, Response(200))]
  }

  lemma NegativeSteps(g: Gateway, u: string, v: string, rr: Step, lc: Step)
    requires rr == Rebuild(PairConfig(u, v, "round_robin"), [])
    requires lc == Rebuild(PairConfig(u, v, "least_connections"), [])
    ensures Run(g, NegativeRun(u, v)) ==
            Apply(Apply(Apply(Apply(Apply(g, rr), Arrive(0, false)), Choose(0, {u, v}, 0)), lc),
                  Return(0, Response(200)))
  {
    var back := Return(0, Response(200));
    var g1 := Apply(g, rr);
    var g2 := Apply(g1, Arrive(0, false));
    var g3 := Apply(g2, Choose(0, {u, v}, 0));
    RunCons(g, rr, [Arrive(0, false), Choose(0, {u, v}, 0), lc, back]);
    RunCons(g1, Arrive(0, false), [Choose(0, {u, v}, 0), lc, back]);
    RunCons(g2, Choose(0, {u, v}, 0), [lc, back]);
    RunCons(g3, lc, [back]);
    RunCons(Apply(g3, lc), back, []);
  }

  /** The proxy starts, a request is out, the strategy is reloaded and the request comes
      back: the count of its backend is -1. */
  lemma NegativeCountReachable(g: Gateway, u: string, v: string)
    requires Initial(g) && Names(u, v)
    ensures var end := Run(g, NegativeRun(u, v));
      && end.live == UnderLeast(u, -1, v, 0) && end.now == g.now && end.requests.Keys == {0}
  {
    var rr, lc := PairConfig(u, v, "round_robin"), PairConfig(u, v, "least_connections");
    var g1 := g.(live := UnderRoundRobin(u, v, 0));
    StartsRoundRobin(g, u, v, rr);
    FirstCalls(g1, u, v);
    var g3 := Apply(Apply(g1, Arrive(0, false)), Choose(0, {u, v}, 0));
    ReloadsLeast(g3, u, v, lc);
    FirstReturns(g3.(live := UnderLeast(u, 0, v, 0)), u, v);
    NegativeSteps(g, u, v, Rebuild(rr, []), Rebuild(lc, []));
  }

  /** From there the next request is sent to the second backend, though the first one
      answers and its count is the smallest. */
  lemma WrongPickReachable(g: Gateway, u: string, v: string)
    requires Initial(g) && Names(u, v)
    ensures var end := Run(g, NegativeRun(u, v));
            var st := Choose(1, {u, v}, 0);
      && end.live == UnderLeast(u, -1, v, 0)
      && Answers(Untried(u, v), {u, v}, u, end.now)
      && Enabled(Apply(end, Arrive(1, false)), st) && PickFor(Apply(end, Arrive(1, false)), st) == Picked(v)
  {
    NegativeCountReachable(g, u, v);
    PassesOver(u, v, g.now);
  }
}
